/** What the ids of discovered applications are made of (discovery.go): the words
    of the file name in lower case, with dashes between them. */
module Slugs {
  import opened Names
  import opened AppIds
  import Discovery

  // --- words ---------------------------------------------------------------

  /** ASCII letters and digits, by code point. */
  predicate WordChar(c: char) {
    97 <= c as int <= 122 || 65 <= c as int <= 90 || 48 <= c as int <= 57
  }

  /** The same letter in lower case. */
  function Small(c: char): char {
    if 65 <= c as int <= 90 then (c as int + 32) as char else c
  }

  function SmallWord(w: string): string {
    seq(|w|, i requires 0 <= i < |w| => Small(w[i]))
  }

  predicate IsWord(w: string) {
    w != "" && forall i | 0 <= i < |w| :: WordChar(w[i])
  }

  predicate IsGap(g: string) {
    forall i | 0 <= i < |g| :: !WordChar(g[i])
  }

  /** A word and what stands between it and the next one. */
  datatype Part = Part(word: string, gap: string)

  ghost predicate IsText(ps: seq<Part>) {
    && (forall i | 0 <= i < |ps| :: IsWord(ps[i].word) && IsGap(ps[i].gap))
    && (forall i | 0 <= i < |ps| - 1 :: ps[i].gap != "")
  }

  function TextOf(ps: seq<Part>): string {
    if ps == [] then "" else ps[0].word + (ps[0].gap + TextOf(ps[1..]))
  }

  /** The words in lower case, with one dash between two of them. */
  function Slug(ps: seq<Part>): string {
    if ps == [] then ""
    else SmallWord(ps[0].word) + (if |ps| == 1 then "" else "-" + Slug(ps[1..]))
  }

  /** Every text is a gap and then words with gaps, in one way. */
  lemma {:induction false} Decomposed(s: string) returns (gap: string, ps: seq<Part>)
    ensures IsGap(gap) && IsText(ps) && s == gap + TextOf(ps)
    decreases |s|
  {
    if s == "" {
      gap, ps := "", [];
    } else {
      gap, ps := Decomposed(s[1..]);
      assert s == s[..1] + s[1..];
      if !WordChar(s[0]) {
        gap := s[..1] + gap;
        assert s == gap + TextOf(ps);
      } else if gap == "" && ps != [] {
        ps := LongerWord(s[0], ps);
        assert s == "" + TextOf(ps);
      } else {
        var was := ps;
        ps := [Part(s[..1], gap)] + was;
        assert ps[1..] == was;
        assert TextOf(ps) == s[..1] + (gap + TextOf(was));
        gap := "";
      }
    }
  }

  lemma LongerWord(c: char, ps: seq<Part>) returns (longer: seq<Part>)
    requires WordChar(c) && ps != [] && IsText(ps)
    ensures IsText(longer) && TextOf(longer) == [c] + TextOf(ps)
  {
    longer := [Part([c] + ps[0].word, ps[0].gap)] + ps[1..];
    assert longer[1..] == ps[1..];
  }

  // --- sanitizing ----------------------------------------------------------

  lemma WordCharsAre(c: char)
    ensures IsAlnum(c) <==> WordChar(c)
    ensures ToLowerAscii(c) == Small(c)
  {
  }

  lemma {:induction false} SquashWord(done: string, prevDash: bool, w: string, rest: string)
    requires IsWord(w)
    ensures Squash(done, prevDash, w + rest) == Squash(done + SmallWord(w), false, rest)
    decreases |w|
  {
    WordCharsAre(w[0]);
    var more := done + [Small(w[0])];
    assert (w + rest)[1..] == w[1..] + rest;
    if |w| == 1 {
      assert w[1..] + rest == rest;
      assert more == done + SmallWord(w);
    } else {
      SquashWord(more, false, w[1..], rest);
      assert more + SmallWord(w[1..]) == done + SmallWord(w);
    }
  }

  /** After a dash, or before the first word, a gap leaves nothing. */
  lemma {:induction false} SquashMoreGap(done: string, prevDash: bool, g: string, rest: string)
    requires IsGap(g) && (done == "" || prevDash)
    ensures Squash(done, prevDash, g + rest) == Squash(done, prevDash || g != "", rest)
    decreases |g|
  {
    if g == "" {
      assert g + rest == rest;
    } else {
      WordCharsAre(g[0]);
      assert (g + rest)[1..] == g[1..] + rest;
      SquashMoreGap(done, true, g[1..], rest);
    }
  }

  /** After a word it leaves one dash. */
  lemma SquashGap(done: string, g: string, rest: string)
    requires IsGap(g) && g != "" && done != ""
    ensures Squash(done, false, g + rest) == Squash(done + "-", true, rest)
  {
    WordCharsAre(g[0]);
    assert (g + rest)[1..] == g[1..] + rest;
    SquashMoreGap(done + "-", true, g[1..], rest);
  }

  /** What squashing leaves of the words: the slug, and a dash if a gap ends the text. */
  function Left(ps: seq<Part>): string {
    Slug(ps) + if ps != [] && ps[|ps| - 1].gap != "" then "-" else ""
  }

  lemma LeftStep(done: string, ps: seq<Part>)
    requires |ps| > 1
    ensures done + Left(ps) == done + SmallWord(ps[0].word) + "-" + Left(ps[1..])
  {
  }

  lemma {:induction false} SquashText(done: string, prevDash: bool, ps: seq<Part>)
    requires IsText(ps)
    ensures Squash(done, prevDash, TextOf(ps)) == done + Left(ps)
    decreases |ps|
  {
    if ps == [] {
      assert done + "" == done;
    } else {
      var w, g, rest := ps[0].word, ps[0].gap, TextOf(ps[1..]);
      var more := done + SmallWord(w);
      SquashWord(done, prevDash, w, g + rest);
      if |ps| == 1 {
        SquashLast(more, g);
        assert done + Left(ps) == more + if g != "" then "-" else "";
      } else {
        SquashGap(more, g, rest);
        SquashText(more + "-", true, ps[1..]);
        LeftStep(done, ps);
      }
    }
  }

  lemma SquashLast(done: string, g: string)
    requires IsGap(g) && done != ""
    ensures Squash(done, false, g + "") == done + if g != "" then "-" else ""
  {
    if g == "" {
      assert g + "" == "" && done + "" == done;
    } else {
      SquashGap(done, g, "");
    }
  }

  lemma {:induction false} SlugEnds(ps: seq<Part>)
    requires IsText(ps) && ps != []
    ensures Slug(ps) != "" && Slug(ps)[0] != '-' && Slug(ps)[|Slug(ps)| - 1] != '-'
  {
    var w := SmallWord(ps[0].word);
    assert w[0] != '-' && w[|w| - 1] != '-';
    if |ps| > 1 {
      SlugEnds(ps[1..]);
    }
  }

  lemma TrimLeftover(ps: seq<Part>)
    requires IsText(ps)
    ensures TrimDashes(Left(ps)) == Slug(ps)
  {
    if ps != [] {
      SlugEnds(ps);
      assert Left(ps)[0] == Slug(ps)[0];
      if ps[|ps| - 1].gap != "" {
        assert Left(ps)[..|Left(ps)| - 1] == Slug(ps);
      } else {
        assert Left(ps) == Slug(ps);
      }
    }
  }

  /** Sanitizing a text keeps its words, in lower case, with one dash between them,
      cut after 48 characters. */
  lemma SanitizedIsSlug(gap: string, ps: seq<Part>)
    requires IsGap(gap) && IsText(ps)
    ensures var slug, id := Slug(ps), Sanitized(gap + TextOf(ps));
      id <= slug && |id| == if |slug| > 48 then 48 else |slug|
  {
    SquashMoreGap("", false, gap, TextOf(ps));
    SquashText("", false || gap != "", ps);
    assert "" + Left(ps) == Left(ps);
    TrimLeftover(ps);
  }

  /** It leaves nothing iff there is no letter and no digit. */
  lemma SanitizedEmptyIff(s: string)
    ensures Sanitized(s) == "" <==> IsGap(s)
  {
    var gap, ps := Decomposed(s);
    SanitizedIsSlug(gap, ps);
    if ps != [] {
      SlugEnds(ps);
      assert s[|gap|] == ps[0].word[0];
    } else {
      assert s == gap;
    }
  }

  // --- the file name -------------------------------------------------------

  lemma {:induction false} ExtOf(path: string, ext: string)
    requires '.' !in ext && '/' !in ext
    ensures Ext(path + "." + ext) == "." + ext
    decreases |ext|
  {
    var whole := path + "." + ext;
    if ext != "" {
      var init := ext[..|ext| - 1];
      assert whole[..|whole| - 1] == path + "." + init;
      assert whole[|whole| - 1] == ext[|ext| - 1] && ext[|ext| - 1] in ext;
      ExtOf(path, init);
      assert "." + init + whole[|whole| - 1..] == "." + ext;
    }
  }

  lemma {:induction false} NoExt(dir: string, name: string)
    requires Discovery.IsDir(dir) && '.' !in name && '/' !in name
    ensures Ext(dir + name) == ""
    decreases |name|
  {
    if name == "" {
      assert dir + name == dir;
    } else {
      var whole := dir + name;
      assert whole[..|whole| - 1] == dir + name[..|name| - 1];
      assert whole[|whole| - 1] == name[|name| - 1] && name[|name| - 1] in name;
      NoExt(dir, name[..|name| - 1]);
    }
  }

  lemma SuffixTrimmed(stem: string, suffix: string)
    ensures TrimSuffix(stem + suffix, suffix) == stem
  {
  }

  lemma FileRegrouped(dir: string, stem: string, ext: string)
    ensures dir + stem + "." + ext == dir + (stem + ("." + ext)) + ""
  {
  }

  /** The id starts from the file name without its last extension, or from the
      app's name if nothing is left of it. */
  lemma SeedOfFile(lower: char -> char, name: string, dir: string, stem: string, ext: string)
    requires Discovery.IsDir(dir) && '/' !in stem && '.' !in ext && '/' !in ext
    ensures Seed(lower, name, dir + stem + "." + ext) == Discovery.Lower(lower, if stem == "" then name else stem)
  {
    Discovery.BaseOf(dir, stem + ("." + ext), "");
    FileRegrouped(dir, stem, ext);
    ExtOf(dir + stem, ext);
    SuffixTrimmed(stem, "." + ext);
    assert |Discovery.Lower(lower, stem)| == |stem|;
  }

  /** From the whole file name if it has no extension, and from the app's name
      without a path. */
  lemma SeedWithoutExtension(lower: char -> char, name: string, dir: string, stem: string)
    requires Discovery.IsDir(dir) && stem != "" && '/' !in stem && '.' !in stem
    ensures Seed(lower, name, dir + stem) == Discovery.Lower(lower, stem)
    ensures Seed(lower, name, "") == Discovery.Lower(lower, name)
  {
    assert dir + stem == dir + stem + "";
    Discovery.BaseOf(dir, stem, "");
    NoExt(dir, stem);
    assert stem[..|stem| - 0] == stem;
    assert |Discovery.Lower(lower, stem)| == |stem|;
  }

  /** The id is the slug of the seed, cut after 48 characters; without a letter or
      a digit it is the hash of the seed behind "app-". */
  lemma AppIDIsSlug(lower: char -> char, name: string, execPath: string, gap: string, ps: seq<Part>)
    requires IsGap(gap) && IsText(ps) && Seed(lower, name, execPath) == gap + TextOf(ps)
    ensures var id, slug := AppID(lower, name, execPath), Slug(ps);
      if ps == [] then id == "app-" + Hashed(Bytes(gap)) else id <= slug && |id| == if |slug| > 48 then 48 else |slug|
  {
    SanitizedIsSlug(gap, ps);
    if ps != [] {
      SlugEnds(ps);
    } else {
      assert gap + "" == gap;
    }
  }

  // --- the bytes that are hashed -------------------------------------------

  /** The code point of a UTF-8 sequence, by the bits that carry it. */
  function FromUtf8(b: seq<int>): int
    requires 1 <= |b| <= 4
  {
    if |b| == 1 then b[0]
    else if |b| == 2 then (b[0] - 192) * 64 + (b[1] - 128)
    else if |b| == 3 then (b[0] - 224) * 4096 + (b[1] - 128) * 64 + (b[2] - 128)
    else (b[0] - 240) * 262144 + (b[1] - 128) * 4096 + (b[2] - 128) * 64 + (b[3] - 128)
  }

  lemma NestedQuotients(u: nat)
    ensures u / 64 / 64 == u / 4096 && u / 4096 / 64 == u / 262144
  {
  }

  lemma LastSix(u: nat)
    ensures u == u / 64 * 64 + u % 64 && 0 <= u % 64 < 64
  {
  }

  lemma ThreeGroups(u: nat)
    ensures u == u / 4096 * 4096 + u / 64 % 64 * 64 + u % 64
  {
    LastSix(u);
    LastSix(u / 64);
    NestedQuotients(u);
  }

  lemma FourGroups(u: nat)
    ensures u == u / 262144 * 262144 + u / 4096 % 64 * 4096 + u / 64 % 64 * 64 + u % 64
  {
    ThreeGroups(u);
    LastSix(u / 4096);
    NestedQuotients(u);
  }

  /** A character is written as well-formed UTF-8: the shortest form, with the
      leading byte that tells its length and continuation bytes behind it. */
  lemma Utf8IsWellFormed(c: char)
    ensures var b, u := Utf8(c), c as int;
      |b| == (if u < 0x80 then 1 else if u < 0x800 then 2 else if u < 0x1_0000 then 3 else 4)
    ensures FromUtf8(Utf8(c)) == c as int
    ensures var b := Utf8(c);
      && (|b| == 1 ==> b[0] < 128) && (|b| == 2 ==> 192 <= b[0] < 224)
      && (|b| == 3 ==> 224 <= b[0] < 240) && (|b| == 4 ==> 240 <= b[0] < 248)
      && forall i | 1 <= i < |b| :: 128 <= b[i] < 192
  {
    LastSix(c as int);
    ThreeGroups(c as int);
    FourGroups(c as int);
  }

  lemma {:induction false} BytesOfConcat(s: string, t: string)
    ensures Bytes(s + t) == Bytes(s) + Bytes(t)
  {
    if s == "" {
      assert s + t == t;
    } else {
      assert (s + t)[1..] == s[1..] + t;
      BytesOfConcat(s[1..], t);
    }
  }

  function PowerOf31(n: nat): nat {
    if n == 0 then 1 else 31 * PowerOf31(n - 1)
  }

  /** The first byte counts with the highest power of 31. */
  lemma {:induction false} LeadingByte(byte: nat, rest: seq<nat>)
    ensures Polynomial([byte] + rest) == byte * PowerOf31(|rest|) + Polynomial(rest)
  {
    var all := [byte] + rest;
    if rest == [] {
      assert all[..|all| - 1] == [];
    } else {
      var init, last := rest[..|rest| - 1], rest[|rest| - 1];
      assert all[..|all| - 1] == [byte] + init;
      LeadingByte(byte, init);
      TimesThirtyOne(byte, PowerOf31(|init|));
    }
  }

  lemma TimesThirtyOne(a: nat, p: nat)
    ensures a * p * 31 == a * (31 * p)
  {
  }
}
