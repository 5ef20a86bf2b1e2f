/** App ids made from names and paths of discovered applications (discovery.go). */
module AppIds {
  import opened Names
  import Discovery

  /** The ids `sanitize` can produce: no leading and no doubled dash. */
  ghost predicate Clean(s: string) {
    && (forall i | 0 <= i < |s| :: IsAppIDChar(s[i]))
    && (s != "" ==> s[0] != '-')
    && (forall i | 0 < i < |s| :: !(s[i - 1] == '-' && s[i] == '-'))
  }

  function ToLowerAscii(c: char): char {
    if 'A' <= c <= 'Z' then c - 'A' + 'a' else c
  }

  predicate IsAlnum(c: char) {
    'a' <= c <= 'z' || '0' <= c <= '9' || 'A' <= c <= 'Z'
  }

  /** Letters and digits stay, every run of other characters becomes one dash. */
  function Squash(done: string, prevDash: bool, s: string): string
    decreases |s|
  {
    if s == "" then done
    else if IsAlnum(s[0]) then Squash(done + [ToLowerAscii(s[0])], false, s[1..])
    else Squash(if !prevDash && done != "" then done + "-" else done, true, s[1..])
  }

  function TrimDashes(s: string): string
    decreases |s|
  {
    if s == "" then ""
    else if s[0] == '-' then TrimDashes(s[1..])
    else if s[|s| - 1] == '-' then TrimDashes(s[..|s| - 1])
    else s
  }

  function Truncate(s: string): string {
    if |s| > MAX_APP_ID then s[..MAX_APP_ID] else s
  }

  function Trimmed(s: string): string {
    TrimDashes(Squash("", false, s))
  }

  function Sanitized(s: string): string {
    Truncate(Trimmed(s))
  }

  method Sanitize(s: string) returns (id: string)
    ensures id == Sanitized(s)
  {
    var b := "";
    var prevDash := false;
    for i := 0 to |s|
      invariant Squash("", false, s) == Squash(b, prevDash, s[i..])
    {
      var r := s[i];
      assert s[i..][1..] == s[i + 1..];
      if 'a' <= r <= 'z' || '0' <= r <= '9' {
        b := b + [r];
        prevDash := false;
      } else if 'A' <= r <= 'Z' {
        b := b + [r - 'A' + 'a'];
        prevDash := false;
      } else {
        if !prevDash && |b| > 0 {
          b := b + "-";
        }
        prevDash := true;
      }
    }
    id := TrimDashes(b);
    if |id| > MAX_APP_ID {
      id := id[..MAX_APP_ID];
    }
  }

  lemma {:induction false} SquashIsClean(done: string, prevDash: bool, s: string)
    requires Clean(done) && (done != "" && done[|done| - 1] == '-' ==> prevDash)
    ensures Clean(Squash(done, prevDash, s))
    decreases |s|
  {
    if s != "" {
      if IsAlnum(s[0]) {
        SquashIsClean(done + [ToLowerAscii(s[0])], false, s[1..]);
      } else {
        SquashIsClean(if !prevDash && done != "" then done + "-" else done, true, s[1..]);
      }
    }
  }

  lemma {:induction false} TrimIsClean(s: string)
    requires Clean(s)
    ensures Clean(TrimDashes(s)) && (TrimDashes(s) != "" ==> TrimDashes(s)[|TrimDashes(s)| - 1] != '-')
    decreases |s|
  {
    if s != "" && s[|s| - 1] == '-' {
      TrimIsClean(s[..|s| - 1]);
    }
  }

  lemma TrimmedIsClean(s: string)
    ensures Clean(Trimmed(s)) && (Trimmed(s) != "" ==> Trimmed(s)[|Trimmed(s)| - 1] != '-')
  {
    SquashIsClean("", false, s);
    TrimIsClean(Squash("", false, s));
  }

  lemma {:induction false} SquashKeeps(done: string, prevDash: bool, s: string)
    requires Clean(done + s) && (prevDash <==> done != "" && done[|done| - 1] == '-')
    ensures Squash(done, prevDash, s) == done + s
    decreases |s|
  {
    if s == "" {
      assert done + s == done;
    } else {
      assert done + s == done + [s[0]] + s[1..];
      assert (done + s)[|done|] == s[0];
      assert prevDash ==> (done + s)[|done| - 1] == '-';
      SquashKeeps(done + [s[0]], s[0] == '-', s[1..]);
    }
  }

  /** An id of at most 48 characters in the produced form, without a dash at the
      end, is left as it is. */
  lemma SanitizeKeepsIds(s: string)
    requires Clean(s) && |s| <= MAX_APP_ID && (s != "" ==> s[|s| - 1] != '-')
    ensures Sanitized(s) == s
  {
    assert "" + s == s;
    SquashKeeps("", false, s);
  }

  /** Sanitizing again changes nothing iff the cut after 48 characters does not
      leave a dash at the end. */
  lemma SanitizeTwiceIff(s: string)
    ensures Sanitized(Sanitized(s)) == Sanitized(s)
       <==> (|Trimmed(s)| > MAX_APP_ID ==> Trimmed(s)[MAX_APP_ID - 1] != '-')
  {
    TrimmedIsClean(s);
    SanitizeKeepsIff(Sanitized(s));
  }

  lemma SanitizeKeepsIff(id: string)
    requires Clean(id) && |id| <= MAX_APP_ID
    ensures Sanitized(id) == id <==> (id != "" ==> id[|id| - 1] != '-')
  {
    if id != "" && id[|id| - 1] == '-' {
      assert "" + id == id;
      SquashKeeps("", false, id);
      TrimShorter(id);
    } else {
      SanitizeKeepsIds(id);
    }
  }

  /** A string of 49 characters with its dash at the cut. */
  lemma SanitizeTwiceDiffers() returns (s: string)
    ensures |s| == 49 && Sanitized(Sanitized(s)) != Sanitized(s)
  {
    var head: string := seq(47, _ => 'a');
    s := head + "-a";
    assert "" + s == s;
    SquashKeeps("", false, s);
    assert TrimDashes(s) == s;
    assert s[MAX_APP_ID - 1] == '-';
    SanitizeTwiceIff(s);
  }

  lemma {:induction false} TrimShorter(s: string)
    requires s != "" && s[|s| - 1] == '-'
    ensures |TrimDashes(s)| < |s|
    decreases |s|
  {
    var rest := if s[0] == '-' then s[1..] else s[..|s| - 1];
    TrimNotLonger(rest);
  }

  lemma {:induction false} TrimNotLonger(s: string)
    ensures |TrimDashes(s)| <= |s|
    decreases |s|
  {
    if s != "" && s[0] == '-' {
      TrimNotLonger(s[1..]);
    } else if s != "" && s[|s| - 1] == '-' {
      TrimNotLonger(s[..|s| - 1]);
    }
  }

  // --- the short hash ------------------------------------------------------

  const TWO_TO_THE_64: int := 0x1_0000_0000_0000_0000
  const TWO_TO_THE_24: int := 0x100_0000
  const CHARS := "0123456789abcdef"

  /** The base-31 polynomial of the bytes, without wrap-around. */
  function Polynomial(bytes: seq<nat>): nat {
    if bytes == [] then 0 else Polynomial(bytes[..|bytes| - 1]) * 31 + bytes[|bytes| - 1]
  }

  /** The lowest `n` hexadecimal digits, highest first. */
  function Hex(h: nat, n: nat): string {
    if n == 0 then "" else Hex(h / 16, n - 1) + [CHARS[h % 16]]
  }

  function DigitValue(c: char): int {
    if '0' <= c <= '9' then c as int - '0' as int else c as int - 'a' as int + 10
  }

  function Decode(s: string): int {
    if s == "" then 0 else Decode(s[..|s| - 1]) * 16 + DigitValue(s[|s| - 1])
  }

  function Hashed(bytes: seq<nat>): string {
    Hex(Polynomial(bytes) % TWO_TO_THE_64, 6)
  }

  /** The loop multiplies and adds in 64-bit arithmetic. */
  method ShortHash(seed: seq<nat>) returns (s: string)
    ensures s == Hashed(seed)
  {
    var h: nat := 0;
    for i := 0 to |seed|
      invariant h == Polynomial(seed[..i]) % TWO_TO_THE_64
    {
      assert seed[..i + 1][..i] == seed[..i];
      WrapStep(Polynomial(seed[..i]), seed[i], TWO_TO_THE_64);
      h := (h * 31 + seed[i]) % TWO_TO_THE_64;
    }
    assert seed[..|seed|] == seed;
    s := SixHexDigits(h);
  }

  /** The digits are written from the last to the first. */
  method SixHexDigits(hash: nat) returns (s: string)
    ensures s == Hex(hash, 6)
  {
    var h := hash;
    var b := new char[6](_ => '0');
    HexLength(h, 6);
    for i := 0 to 6
      invariant Hex(h, 6 - i) + b[6 - i..] == Hex(hash, 6)
    {
      ghost var before := b[6 - i..];
      b[5 - i] := CHARS[h % 16];
      assert b[5 - i..] == [CHARS[h % 16]] + before;
      assert Hex(h, 6 - i) + before == Hex(h / 16, 5 - i) + ([CHARS[h % 16]] + before);
      h := h / 16;
    }
    assert b[..] == Hex(hash, 6);
    s := b[..];
  }

  /** Wrapping round after every byte is wrapping round once. */
  lemma WrapStep(p: nat, byte: nat, m: nat)
    requires m > 0
    ensures (p % m * 31 + byte) % m == (p * 31 + byte) % m
  {
    var q, r := p / m, p % m;
    var t, u := (r * 31 + byte) / m, (r * 31 + byte) % m;
    Distribute(q * 31, t, m);
    assert q * 31 * m == q * m * 31 by { Associate(q, 31, m); }
    UniqueRemainder(p * 31 + byte, m, q * 31 + t, u);
  }

  lemma Distribute(a: nat, b: nat, m: nat)
    ensures (a + b) * m == a * m + b * m
  {
  }

  lemma Associate(a: nat, b: nat, m: nat)
    ensures a * b * m == a * m * b == a * (b * m)
  {
  }

  lemma {:induction false} HexLength(h: nat, n: nat)
    ensures |Hex(h, n)| == n
  {
    if n > 0 {
      HexLength(h / 16, n - 1);
    }
  }

  function PowerOf16(n: nat): nat {
    if n == 0 then 1 else 16 * PowerOf16(n - 1)
  }

  lemma {:induction false} HexDecodes(h: nat, n: nat)
    ensures PowerOf16(n) > 0 && Decode(Hex(h, n)) == h % PowerOf16(n)
  {
    if n > 0 {
      HexDecodes(h / 16, n - 1);
      var s := Hex(h, n);
      assert s[..|s| - 1] == Hex(h / 16, n - 1);
      DigitDecodes(h % 16);
      ModStep(h, PowerOf16(n - 1));
    }
  }

  lemma DigitDecodes(d: nat)
    requires d < 16
    ensures DigitValue(CHARS[d]) == d
  {
  }

  lemma ModStep(h: nat, m: nat)
    requires m > 0
    ensures h / 16 % m * 16 + h % 16 == h % (16 * m)
  {
    var q, r := h / 16 / m, h / 16 % m;
    assert h == (q * m + r) * 16 + h % 16;
    assert h == q * (16 * m) + (r * 16 + h % 16);
    assert r * 16 + h % 16 < 16 * m;
    UniqueRemainder(h, 16 * m, q, r * 16 + h % 16);
  }

  lemma UniqueRemainder(x: nat, m: nat, q: nat, r: nat)
    requires m > 0 && r < m && x == q * m + r
    ensures x % m == r
  {
    SameRemainder(m, q, r, x / m, x % m);
  }

  lemma SameRemainder(m: nat, q: nat, r: nat, q': nat, r': nat)
    requires r < m && r' < m && q * m + r == q' * m + r'
    ensures r == r'
  {
    if q < q' {
      MultipleAtLeast(q' - q, m);
    } else if q' < q {
      MultipleAtLeast(q - q', m);
    }
  }

  lemma MultipleAtLeast(k: nat, m: nat)
    requires k > 0
    ensures k * m >= m
  {
    assert k * m == (k - 1) * m + m;
  }

  /** Taking the remainder by a multiple of `m` first makes no difference. */
  lemma RemainderOfRemainder(x: nat, k: nat, m: nat)
    requires k > 0 && m > 0 && k * m > 0
    ensures x % (k * m) % m == x % m
  {
    var q, r := x / (k * m), x % (k * m);
    var p, d := r / m, r % m;
    Associate(q, k, m);
    Distribute(q * k, p, m);
    UniqueRemainder(x, m, q * k + p, d);
  }

  /** The six digits decode to the polynomial modulo 2^24, despite the 64-bit wrap-around. */
  lemma HashIsPolynomialMod24(bytes: seq<nat>)
    ensures |Hashed(bytes)| == 6 && Decode(Hashed(bytes)) == Polynomial(bytes) % TWO_TO_THE_24
    ensures forall c | c in Hashed(bytes) :: c in CHARS
  {
    var p := Polynomial(bytes);
    var h := p % TWO_TO_THE_64;
    HexLength(h, 6);
    HexDecodes(h, 6);
    HexChars(h, 6);
    SixDigits();
    RemainderOfRemainder(p, 0x100_0000_0000, TWO_TO_THE_24);
  }

  lemma SixDigits()
    ensures PowerOf16(6) == TWO_TO_THE_24
  {
    assert PowerOf16(3) == 0x1000;
  }

  lemma {:induction false} HexChars(h: nat, n: nat)
    ensures forall c | c in Hex(h, n) :: c in CHARS
  {
    if n > 0 {
      HexChars(h / 16, n - 1);
    }
  }

  // --- app ids -------------------------------------------------------------

  /** The extension of the last path element, with its dot. */
  function Ext(path: string): string {
    if path == "" || path[|path| - 1] == '/' then ""
    else if path[|path| - 1] == '.' then "."
    else
      var e := Ext(path[..|path| - 1]);
      if e == "" then "" else e + path[|path| - 1..]
  }

  function TrimSuffix(s: string, suffix: string): string {
    if |suffix| <= |s| && s[|s| - |suffix|..] == suffix then s[..|s| - |suffix|] else s
  }

  function Utf8(c: char): seq<nat> {
    var u := c as int;
    if u < 0x80 then [u]
    else if u < 0x800 then [0xC0 + u / 64, 0x80 + u % 64]
    else if u < 0x1_0000 then [0xE0 + u / 4096, 0x80 + u / 64 % 64, 0x80 + u % 64]
    else [0xF0 + u / 262144, 0x80 + u / 4096 % 64, 0x80 + u / 64 % 64, 0x80 + u % 64]
  }

  function Bytes(s: string): seq<nat> {
    if s == "" then [] else Utf8(s[0]) + Bytes(s[1..])
  }

  function Seed(lower: char -> char, name: string, execPath: string): string {
    var base :=
      if execPath == "" then ""
      else Discovery.Lower(lower, TrimSuffix(Discovery.Base(execPath), Ext(execPath)));
    if base == "" then Discovery.Lower(lower, name) else base
  }

  function AppID(lower: char -> char, name: string, execPath: string): string {
    var seed := Seed(lower, name, execPath);
    if Sanitized(seed) == "" then "app-" + Hashed(Bytes(seed)) else Sanitized(seed)
  }

  method AppIDFrom(lower: char -> char, name: string, execPath: string) returns (id: string)
    ensures id == AppID(lower, name, execPath)
  {
    var seed := Seed(lower, name, execPath);
    id := Sanitize(seed);
    if id == "" {
      var hash := ShortHash(Bytes(seed));
      id := "app-" + hash;
    }
  }

  lemma HashedIdIsValid(bytes: seq<nat>)
    ensures IsAppID("app-" + Hashed(bytes)) && Clean("app-" + Hashed(bytes))
  {
    HashIsPolynomialMod24(bytes);
    var hash := Hashed(bytes);
    forall i | 0 <= i < 10 ensures IsAppIDChar(("app-" + hash)[i]) && (i >= 4 ==> ("app-" + hash)[i] != '-') {
      if i >= 4 {
        assert hash[i - 4] in hash;
      }
    }
  }

  /** Whatever the name and the path: the id is one that registration accepts,
      without a leading or a doubled dash. */
  lemma AppIDIsValid(lower: char -> char, name: string, execPath: string)
    ensures IsAppID(AppID(lower, name, execPath)) && Clean(AppID(lower, name, execPath))
  {
    var seed := Seed(lower, name, execPath);
    TrimmedIsClean(seed);
    HashedIdIsValid(Bytes(seed));
  }
}
