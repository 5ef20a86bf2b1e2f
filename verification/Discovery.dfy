/**
  Ranking of discovered applications (discovery.go). `lower` stands for the
  rune-by-rune lower-casing of the standard library; `q` is the trimmed,
  lower-cased query.
 */
module Discovery {
  datatype Candidate = Candidate(appID: string, appName: string, execPath: string, confidence: int)

  function Lower(lower: char -> char, s: string): string {
    seq(|s|, i requires 0 <= i < |s| => lower(s[i]))
  }

  function Contains(s: string, part: string): bool {
    part <= s || (s != "" && Contains(s[1..], part))
  }

  function TrimSlashes(path: string): string {
    if path != "" && path[|path| - 1] == '/' then TrimSlashes(path[..|path| - 1]) else path
  }

  function LastElement(path: string): string {
    if path != "" && path[|path| - 1] != '/' then LastElement(path[..|path| - 1]) + path[|path| - 1..] else ""
  }

  /** The last element of a slash-separated path. */
  function Base(path: string): string {
    if path == "" then "."
    else if TrimSlashes(path) == "" then "/"
    else LastElement(TrimSlashes(path))
  }

  function ScoreByName(lower: char -> char, name: string, q: string): int {
    if q == "" then 50
    else
      var n, lq := Lower(lower, name), Lower(lower, q);
      if n == lq then 100 else if lq <= n then 90 else if Contains(n, lq) then 80 else 0
  }

  function Score(lower: char -> char, c: Candidate, q: string): int {
    var lq := Lower(lower, q);
    var byName := ScoreByName(lower, c.appName, lq);
    if byName != 0 then byName
    else if Contains(Lower(lower, c.appID), lq) then 70
    else if Contains(Lower(lower, Base(c.execPath)), lq) then 60
    else 0
  }

  function Ranked(lower: char -> char, cs: seq<Candidate>, q: string): (r: seq<Candidate>)
    ensures |r| == |cs|
  {
    seq(|cs|, i requires 0 <= i < |cs| => cs[i].(confidence := Score(lower, cs[i], q)))
  }

  function Positive(cs: seq<Candidate>): seq<Candidate> {
    if cs == [] then []
    else Positive(cs[..|cs| - 1]) + if cs[|cs| - 1].confidence > 0 then [cs[|cs| - 1]] else []
  }

  predicate Valid(c: Candidate) {
    c.appID != "" && c.execPath != ""
  }

  type Best = map<string, Candidate>

  function Better(best: Best, c: Candidate): Best {
    if Valid(c) && (c.appID !in best || c.confidence > best[c.appID].confidence) then best[c.appID := c] else best
  }

  function BestOf(cs: seq<Candidate>): Best {
    if cs == [] then map[] else Better(BestOf(cs[..|cs| - 1]), cs[|cs| - 1])
  }

  // --- the loops -----------------------------------------------------------

  method RankByQuery(lower: char -> char, cs: seq<Candidate>, q: string) returns (out: array<Candidate>)
    ensures fresh(out) && out[..] == Ranked(lower, cs, q)
  {
    out := new Candidate[|cs|](i requires 0 <= i < |cs| => cs[i]);
    for i := 0 to out.Length
      invariant forall k | 0 <= k < i :: out[k] == cs[k].(confidence := Score(lower, cs[k], q))
      invariant forall k | i <= k < |cs| :: out[k] == cs[k]
    {
      out[i] := out[i].(confidence := Score(lower, cs[i], q));
    }
  }

  /** Keeps the positive ones, in order, in the same array. */
  method FilterInPlace(a: array<Candidate>) returns (n: nat)
    modifies a
    ensures n <= a.Length && a[..n] == Positive(old(a[..]))
  {
    n := 0;
    for i := 0 to a.Length
      invariant n <= i
      invariant a[..n] == Positive(old(a[..i]))
      invariant forall k | i <= k < a.Length :: a[k] == old(a[k])
    {
      assert old(a[..i + 1])[..i] == old(a[..i]);
      if a[i].confidence > 0 {
        a[n] := a[i];
        n := n + 1;
      }
    }
    assert old(a[..a.Length]) == old(a[..]);
  }

  ghost predicate Descending(s: seq<Candidate>) {
    forall i, j | 0 <= i < j < |s| :: s[i].confidence >= s[j].confidence
  }

  method SwapWithPrevious(a: array<Candidate>, j: nat)
    requires 0 < j < a.Length
    modifies a
    ensures a[j - 1] == old(a[j]) && a[j] == old(a[j - 1])
    ensures forall k | 0 <= k < a.Length && k != j && k != j - 1 :: a[k] == old(a[k])
    ensures multiset(a[..]) == old(multiset(a[..]))
  {
    a[j - 1], a[j] := a[j], a[j - 1];
  }

  method SortDescending(a: array<Candidate>)
    modifies a
    ensures Descending(a[..])
    ensures multiset(a[..]) == old(multiset(a[..]))
  {
    if a.Length == 0 {
      return;
    }
    for i := 1 to a.Length
      invariant forall x, y | 0 <= x < y < i :: a[x].confidence >= a[y].confidence
      invariant multiset(a[..]) == old(multiset(a[..]))
    {
      var j := i;
      while j > 0 && a[j - 1].confidence < a[j].confidence
        invariant 0 <= j <= i
        invariant forall x, y | 0 <= x < y <= i && y != j :: a[x].confidence >= a[y].confidence
        invariant multiset(a[..]) == old(multiset(a[..]))
      {
        SwapWithPrevious(a, j);
        j := j - 1;
      }
    }
  }

  /** `out` is a best-first selection from `best`: its entries are entries of
      `best`, one per id, in descending order, and an entry is missing only if the
      limit is reached and nothing selected scores less. */
  ghost predicate TopOf(best: Best, limit: int, out: seq<Candidate>) {
    && (forall c | c in out :: c.appID in best && best[c.appID] == c)
    && (forall i, j | 0 <= i < j < |out| :: out[i].appID != out[j].appID)
    && Descending(out)
    && (limit > 0 ==> |out| <= limit)
    && (forall id | id in best && best[id] !in out ::
          limit > 0 && |out| == limit && forall c | c in out :: c.confidence >= best[id].confidence)
  }

  /** The values of the map in whatever order. */
  method ValuesOf(best: Best) returns (out: seq<Candidate>)
    requires forall id | id in best :: best[id].appID == id
    ensures forall c | c in out :: c.appID in best && best[c.appID] == c
    ensures forall id | id in best :: best[id] in out
    ensures forall i, j | 0 <= i < j < |out| :: out[i] != out[j]
  {
    out := [];
    var todo := best.Keys;
    while todo != {}
      invariant todo <= best.Keys
      invariant forall c | c in out :: c.appID in best && c.appID !in todo && best[c.appID] == c
      invariant forall id | id in best && id !in todo :: best[id] in out
      invariant forall i, j | 0 <= i < j < |out| :: out[i] != out[j]
    {
      var id :| id in todo;
      todo := todo - {id};
      out := out + [best[id]];
    }
  }

  /** The first candidate met with the highest confidence, for each id. */
  method BestByID(cs: seq<Candidate>) returns (best: Best)
    ensures best == BestOf(cs)
  {
    best := map[];
    for i := 0 to |cs|
      invariant best == BestOf(cs[..i])
    {
      assert cs[..i + 1][..i] == cs[..i];
      if cs[i].appID == "" || cs[i].execPath == "" {
        continue;
      }
      if cs[i].appID !in best || cs[i].confidence > best[cs[i].appID].confidence {
        best := best[cs[i].appID := cs[i]];
      }
    }
    assert cs[..|cs|] == cs;
  }

  method Dedup(cs: seq<Candidate>, limit: int) returns (out: seq<Candidate>)
    ensures TopOf(BestOf(cs), limit, out)
  {
    var best := BestByID(cs);
    BestKeys(cs);
    var values := ValuesOf(best);
    var a := new Candidate[|values|](i requires 0 <= i < |values| => values[i]);
    assert a[..] == values;
    SortDescending(a);
    out := a[..];
    SamePlaces(values, out);
    CutIsTop(best, out, limit);
    if limit > 0 && a.Length > limit {
      out := a[..limit];
      assert out == a[..][..limit];
    }
  }

  /** All the best entries in descending order, cut at the limit. */
  lemma CutIsTop(best: Best, all: seq<Candidate>, limit: int)
    requires forall c | c in all :: c.appID in best && best[c.appID] == c
    requires forall id | id in best :: best[id] in all
    requires forall i, j | 0 <= i < j < |all| :: all[i] != all[j]
    requires Descending(all)
    ensures TopOf(best, limit, if limit > 0 && |all| > limit then all[..limit] else all)
  {
    if limit > 0 && |all| > limit {
      var out := all[..limit];
      assert forall k | 0 <= k < limit :: all[k] == out[k] && out[k] in out;
      forall id, c | id in best && best[id] !in out && c in out ensures c.confidence >= best[id].confidence {
        var k :| 0 <= k < |all| && all[k] == best[id];
        assert k >= limit;
      }
    }
  }

  method Search(lower: char -> char, cached: seq<Candidate>, q: string, limit: int) returns (out: seq<Candidate>)
    ensures TopOf(BestOf(if q == "" then Ranked(lower, cached, "") else Positive(Ranked(lower, cached, q))), limit, out)
  {
    var ranked := RankByQuery(lower, cached, q);
    if q == "" {
      out := Dedup(ranked[..], limit);
    } else {
      var n := FilterInPlace(ranked);
      out := Dedup(ranked[..n], limit);
    }
  }

  lemma {:induction false} BestKeys(cs: seq<Candidate>)
    ensures forall id | id in BestOf(cs) :: BestOf(cs)[id].appID == id
  {
    if cs != [] {
      BestKeys(cs[..|cs| - 1]);
    }
  }

  /** Rearranging keeps the members, and keeps them distinct. */
  lemma SamePlaces(s: seq<Candidate>, t: seq<Candidate>)
    requires multiset(s) == multiset(t)
    requires forall i, j | 0 <= i < j < |s| :: s[i] != s[j]
    ensures forall c :: c in s <==> c in t
    ensures forall i, j | 0 <= i < j < |t| :: t[i] != t[j]
  {
    forall c ensures c in s <==> c in t {
      assert c in multiset(s) <==> c in multiset(t);
    }
    forall i, j | 0 <= i < j < |t| ensures t[i] != t[j] {
      if t[i] == t[j] {
        Twice(t, i, j);
        Once(s, t[i]);
      }
    }
  }

  lemma Twice(t: seq<Candidate>, i: nat, j: nat)
    requires i < j < |t| && t[i] == t[j]
    ensures multiset(t)[t[i]] >= 2
  {
    assert t == t[..j] + t[j..];
    assert t[i] in t[..j] && t[j] in t[j..];
  }

  lemma {:induction false} Once(s: seq<Candidate>, c: Candidate)
    requires forall i, j | 0 <= i < j < |s| :: s[i] != s[j]
    ensures multiset(s)[c] <= 1
  {
    if s != [] {
      var init := s[..|s| - 1];
      Once(init, c);
      assert s == init + [s[|s| - 1]];
      if c == s[|s| - 1] {
        assert c !in init;
      }
    }
  }

  // --- what a search returns -----------------------------------------------

  /** Position `k` is the first among the highest-scoring valid candidates of `id`. */
  ghost predicate FirstHighest(cs: seq<Candidate>, k: nat, id: string) {
    && k < |cs| && Valid(cs[k]) && cs[k].appID == id
    && (forall m | 0 <= m < k && Valid(cs[m]) && cs[m].appID == id :: cs[m].confidence < cs[k].confidence)
    && (forall m | k < m < |cs| && Valid(cs[m]) && cs[m].appID == id :: cs[m].confidence <= cs[k].confidence)
  }

  lemma {:induction false} BestMembers(cs: seq<Candidate>, id: string)
    ensures id in BestOf(cs) <==> exists c | c in cs :: Valid(c) && c.appID == id
  {
    if cs != [] {
      BestMembers(cs[..|cs| - 1], id);
      assert cs == cs[..|cs| - 1] + [cs[|cs| - 1]];
    }
  }

  /** The entry kept for an id is the first of the highest-scoring ones. */
  lemma {:induction false} BestIsFirstHighest(cs: seq<Candidate>, id: string) returns (k: nat)
    requires id in BestOf(cs)
    ensures FirstHighest(cs, k, id) && cs[k] == BestOf(cs)[id]
  {
    var init, last := cs[..|cs| - 1], cs[|cs| - 1];
    assert cs == init + [last];
    BestKeys(init);
    if id in BestOf(init) {
      k := BestIsFirstHighest(init, id);
      if Valid(last) && last.appID == id && last.confidence > init[k].confidence {
        k := |cs| - 1;
      }
    } else {
      BestMembers(init, id);
      k := |cs| - 1;
    }
  }

  lemma {:induction false} PositiveKeeps(cs: seq<Candidate>, c: Candidate)
    ensures c in Positive(cs) <==> c in cs && c.confidence > 0
  {
    if cs != [] {
      PositiveKeeps(cs[..|cs| - 1], c);
      assert cs == cs[..|cs| - 1] + [cs[|cs| - 1]];
    }
  }

  /** A cached candidate with the score the query gives it. */
  ghost predicate Scored(lower: char -> char, cached: seq<Candidate>, q: string, c: Candidate, d: Candidate) {
    d in cached && c == d.(confidence := Score(lower, d, q))
  }

  lemma ResultIsScored(
      lower: char -> char, cached: seq<Candidate>, q: string, limit: int, out: seq<Candidate>, c: Candidate)
    requires TopOf(BestOf(Positive(Ranked(lower, cached, q))), limit, out) && c in out
    ensures c.confidence > 0 && c.appID != "" && c.execPath != "" && exists d :: Scored(lower, cached, q, c, d)
  {
    var ranked := Ranked(lower, cached, q);
    var k := BestIsFirstHighest(Positive(ranked), c.appID);
    PositiveKeeps(ranked, c);
    var m :| 0 <= m < |ranked| && ranked[m] == c;
    assert Scored(lower, cached, q, c, cached[m]);
  }

  lemma MissingScoresLess(
      lower: char -> char, cached: seq<Candidate>, q: string, limit: int, out: seq<Candidate>, d: Candidate)
    requires TopOf(BestOf(Positive(Ranked(lower, cached, q))), limit, out)
    requires d in cached && d.appID != "" && d.execPath != "" && Score(lower, d, q) > 0
    ensures || (exists c :: c in out && c.appID == d.appID && c.confidence >= Score(lower, d, q))
            || (limit > 0 && |out| == limit && forall c | c in out :: c.confidence >= Score(lower, d, q))
  {
    var ranked := Ranked(lower, cached, q);
    var scored := Positive(ranked);
    var best := BestOf(scored);
    var m :| 0 <= m < |cached| && cached[m] == d;
    PositiveKeeps(ranked, ranked[m]);
    HighestAtLeast(scored, ranked[m]);
    BestKeys(scored);
    if best[d.appID] in out {
      assert best[d.appID].appID == d.appID;
    }
  }

  /** Every result of a query is a cached candidate with its score, which is
      positive, with an id and a path; ids are distinct and scores descend; a valid
      candidate that scores and whose id is missing scores no more than any result,
      and one whose id is listed scores no more than that result. */
  lemma SearchIsTopK(lower: char -> char, cached: seq<Candidate>, q: string, limit: int, out: seq<Candidate>)
    requires TopOf(BestOf(Positive(Ranked(lower, cached, q))), limit, out)
    ensures forall c | c in out ::
      c.confidence > 0 && c.appID != "" && c.execPath != "" && exists d :: Scored(lower, cached, q, c, d)
    ensures forall i, j | 0 <= i < j < |out| ::
      out[i].appID != out[j].appID && out[i].confidence >= out[j].confidence
    ensures forall d | d in cached && d.appID != "" && d.execPath != "" && Score(lower, d, q) > 0 ::
      || (exists c :: c in out && c.appID == d.appID && c.confidence >= Score(lower, d, q))
      || (limit > 0 && |out| == limit && forall c | c in out :: c.confidence >= Score(lower, d, q))
  {
    forall c | c in out
      ensures c.confidence > 0 && c.appID != "" && c.execPath != "" && exists d :: Scored(lower, cached, q, c, d)
    {
      ResultIsScored(lower, cached, q, limit, out, c);
    }
    forall d | d in cached && d.appID != "" && d.execPath != "" && Score(lower, d, q) > 0
      ensures || (exists c :: c in out && c.appID == d.appID && c.confidence >= Score(lower, d, q))
              || (limit > 0 && |out| == limit && forall c | c in out :: c.confidence >= Score(lower, d, q))
    {
      MissingScoresLess(lower, cached, q, limit, out, d);
    }
  }

  /** A non-empty query scores exactly where the lower-cased name, id or file
      name contains it, and an exact name scores highest, then a prefix. */
  lemma ScoreTiers(lower: char -> char, c: Candidate, q: string)
    requires q != "" && forall x :: lower(lower(x)) == lower(x)
    ensures var lq, name := Lower(lower, q), Lower(lower, c.appName);
      && (Score(lower, c, q) > 0 <==>
            Contains(name, lq) || Contains(Lower(lower, c.appID), lq) || Contains(Lower(lower, Base(c.execPath)), lq))
      && (Score(lower, c, q) == 100 <==> name == lq)
      && (Score(lower, c, q) >= 90 <==> lq <= name)
      && (Score(lower, c, q) >= 80 <==> Contains(name, lq))
      && (Score(lower, c, q) == 70 <==> !Contains(name, lq) && Contains(Lower(lower, c.appID), lq))
      && (Score(lower, c, q) == 60 <==>
            && !Contains(name, lq) && !Contains(Lower(lower, c.appID), lq)
            && Contains(Lower(lower, Base(c.execPath)), lq))
      && Score(lower, c, q) in {0, 60, 70, 80, 90, 100}
  {
    var lq := Lower(lower, q);
    assert Lower(lower, lq) == lq;
  }

  /** Without a query and a limit the result has every valid cached id, with the
      first candidate met for it. */
  lemma EmptyQueryListsEveryApp(lower: char -> char, cached: seq<Candidate>, out: seq<Candidate>, m: nat)
    requires TopOf(BestOf(Ranked(lower, cached, "")), 0, out)
    requires m < |cached| && Valid(cached[m])
    requires forall k | 0 <= k < m && Valid(cached[k]) :: cached[k].appID != cached[m].appID
    ensures cached[m].(confidence := 50) in out
  {
    var ranked, id := Ranked(lower, cached, ""), cached[m].appID;
    assert forall k | 0 <= k < |cached| :: ranked[k] == cached[k].(confidence := 50);
    HighestAtLeast(ranked, ranked[m]);
    var k := BestIsFirstHighest(ranked, id);
    assert k == m;
  }

  lemma HighestAtLeast(cs: seq<Candidate>, c: Candidate)
    requires c in cs && Valid(c)
    ensures c.appID in BestOf(cs) && BestOf(cs)[c.appID].confidence >= c.confidence
  {
    BestMembers(cs, c.appID);
    var k := BestIsFirstHighest(cs, c.appID);
    var m :| 0 <= m < |cs| && cs[m] == c;
  }

  /** The text stands at position `k`. */
  predicate StandsAt(s: string, part: string, k: nat) {
    k + |part| <= |s| && s[k..k + |part|] == part
  }

  lemma StandsBehind(s: string, part: string, k: nat)
    requires s != ""
    ensures StandsAt(s, part, k + 1) <==> StandsAt(s[1..], part, k)
  {
    if k + 1 + |part| <= |s| {
      assert s[k + 1..k + 1 + |part|] == s[1..][k..k + |part|];
    }
  }

  lemma {:induction false} FoundWhereItStands(s: string, part: string, k: nat)
    requires StandsAt(s, part, k)
    ensures Contains(s, part)
  {
    if k == 0 {
      assert s[0..|part|] == part;
    } else {
      StandsBehind(s, part, k - 1);
      FoundWhereItStands(s[1..], part, k - 1);
    }
  }

  lemma {:induction false} StandsSomewhere(s: string, part: string) returns (k: nat)
    requires Contains(s, part)
    ensures StandsAt(s, part, k)
  {
    if part <= s {
      k := 0;
    } else {
      var m := StandsSomewhere(s[1..], part);
      StandsBehind(s, part, m);
      k := m + 1;
    }
  }

  /** Containing a text is having it at some position. */
  lemma ContainsIff(s: string, part: string)
    ensures Contains(s, part) <==> exists k: nat :: StandsAt(s, part, k)
  {
    if Contains(s, part) {
      var k := StandsSomewhere(s, part);
    } else {
      forall k: nat ensures !StandsAt(s, part, k) {
        if StandsAt(s, part, k) {
          FoundWhereItStands(s, part, k);
        }
      }
    }
  }

  // --- file names ----------------------------------------------------------

  /** Nothing, or a path up to and with a slash. */
  predicate IsDir(dir: string) {
    dir == "" || dir[|dir| - 1] == '/'
  }

  predicate Slashes(s: string) {
    forall i | 0 <= i < |s| :: s[i] == '/'
  }

  lemma {:induction false} SlashesTrimmed(path: string, slashes: string)
    requires Slashes(slashes)
    ensures TrimSlashes(path + slashes) == TrimSlashes(path)
    decreases |slashes|
  {
    if slashes == "" {
      assert path + slashes == path;
    } else {
      assert (path + slashes)[..|path + slashes| - 1] == path + slashes[..|slashes| - 1];
      SlashesTrimmed(path, slashes[..|slashes| - 1]);
    }
  }

  lemma {:induction false} LastElementOf(dir: string, name: string)
    requires IsDir(dir) && '/' !in name
    ensures LastElement(dir + name) == name
    decreases |name|
  {
    if name == "" {
      assert dir + name == dir;
    } else {
      assert (dir + name)[..|dir + name| - 1] == dir + name[..|name| - 1];
      assert (dir + name)[|dir + name| - 1..] == name[|name| - 1..];
      LastElementOf(dir, name[..|name| - 1]);
    }
  }

  /** The base of a path is the name behind the last slash, without slashes at the end. */
  lemma BaseOf(dir: string, name: string, slashes: string)
    requires IsDir(dir) && name != "" && '/' !in name && Slashes(slashes)
    ensures Base(dir + name + slashes) == name
  {
    SlashesTrimmed(dir + name, slashes);
    assert (dir + name)[|dir + name| - 1] == name[|name| - 1];
    LastElementOf(dir, name);
  }

  /** Without any name it is a dot or a slash. */
  lemma BaseOfNothing(slashes: string)
    requires Slashes(slashes)
    ensures Base(slashes) == if slashes == "" then "." else "/"
  {
    SlashesTrimmed("", slashes);
    assert "" + slashes == slashes;
  }
}
