/**
 * Character and string helpers with Python's meaning: `str.isspace`,
 * `str.strip`, `string.punctuation`, `str.join`, `in` on strings, and the
 * zero-padded decimal rendering of `f"{n:02}"`. `str.upper`, `str.lower`
 * and `str.isupper` are modelled only for the letters whose case partner
 * lies 32 code points away: `A`-`Z`, `a`-`z` and the Latin-1 letters
 * `À`-`Þ` and `à`-`þ` (except `×` and `÷`). Every other character is left
 * unchanged, including the Latin-1 letters `ß`, `ÿ` and `µ`, which Python
 * upper-cases to `"SS"`, U+0178 and U+039C.
 */
module Text {

  /** Python's `str.isspace` for one character. */
  predicate IsSpace(c: char) {
    c == ' ' || ('\t' <= c <= '\r') || ('\U{1C}' <= c <= '\U{1F}')
    || c == '\U{85}' || c == '\U{A0}' || c == '\U{1680}'
    || ('\U{2000}' <= c <= '\U{200A}') || c == '\U{2028}' || c == '\U{2029}'
    || c == '\U{202F}' || c == '\U{205F}' || c == '\U{3000}'
  }

  /** An upper-case letter whose lower-case partner is 32 code points above it. */
  predicate IsUpper(c: char) {
    ('A' <= c <= 'Z') || ('\U{C0}' <= c <= '\U{DE}' && c != '\U{D7}')
  }

  /** A lower-case letter whose upper-case partner is 32 code points below it (so not `ß`, `ÿ` or `µ`). */
  predicate IsLowerLetter(c: char) {
    ('a' <= c <= 'z') || ('\U{E0}' <= c <= '\U{FE}' && c != '\U{F7}')
  }

  /** A member of Python's `string.punctuation` (the 32 ASCII marks). */
  predicate IsPunct(c: char) {
    ('!' <= c <= '/') || (':' <= c <= '@') || ('[' <= c <= '`') || ('{' <= c <= '~')
  }

  function ToUpper(c: char): (u: char)
    ensures IsLowerLetter(c) ==> IsUpper(u)
    ensures !IsLowerLetter(c) ==> u == c
  {
    if IsLowerLetter(c) then (c as int - 32) as char else c
  }

  function ToLower(c: char): (l: char)
    ensures IsUpper(c) ==> IsLowerLetter(l)
    ensures !IsUpper(c) ==> l == c
  {
    if IsUpper(c) then (c as int + 32) as char else c
  }

  /** Upper-casing is idempotent and never touches whitespace or punctuation. */
  lemma UpperFacts(c: char)
    ensures ToUpper(ToUpper(c)) == ToUpper(c)
    ensures IsSpace(ToUpper(c)) == IsSpace(c) && IsPunct(ToUpper(c)) == IsPunct(c)
    ensures !IsUpper(c) ==> !IsUpper(ToUpper(c)) ==> ToUpper(c) == c
  {
  }

  /** Lower-casing is idempotent and never touches whitespace or punctuation. */
  lemma LowerFacts(c: char)
    ensures ToLower(ToLower(c)) == ToLower(c)
    ensures IsSpace(ToLower(c)) == IsSpace(c) && IsPunct(ToLower(c)) == IsPunct(c)
  {
  }

  /** Python's `str.lower()`. */
  function Lower(s: string): (r: string)
    ensures |r| == |s|
  {
    if s == [] then [] else [ToLower(s[0])] + Lower(s[1..])
  }

  /** `str.lower()` maps each character on its own. */
  lemma {:induction false} LowerAt(s: string, i: nat)
    requires i < |s|
    ensures Lower(s)[i] == ToLower(s[i])
  {
    if i > 0 {
      LowerAt(s[1..], i - 1);
    }
  }

  lemma {:induction false} LowerIdempotent(s: string)
    ensures Lower(Lower(s)) == Lower(s)
  {
    if s != [] {
      LowerFacts(s[0]);
      LowerIdempotent(s[1..]);
      assert Lower(s)[1..] == Lower(s[1..]);
    }
  }

  /** Removes leading whitespace. */
  function TrimStart(s: string): (r: string)
    ensures |r| <= |s|
    ensures r == [] || !IsSpace(r[0])
  {
    if s != [] && IsSpace(s[0]) then TrimStart(s[1..]) else s
  }

  /** What `TrimStart` keeps is a suffix. */
  lemma {:induction false} TrimStartSuffix(s: string)
    ensures TrimStart(s) == s[|s| - |TrimStart(s)|..]
  {
    if s != [] && IsSpace(s[0]) {
      TrimStartSuffix(s[1..]);
    }
  }

  /** Removes trailing whitespace. */
  function TrimEnd(s: string): (r: string)
    ensures |r| <= |s| && (r != [] ==> r[0] == s[0])
    ensures r == [] || !IsSpace(r[|r| - 1])
  {
    if s != [] && IsSpace(s[|s| - 1]) then TrimEnd(s[..|s| - 1]) else s
  }

  /** What `TrimEnd` keeps is a prefix. */
  lemma {:induction false} TrimEndPrefix(s: string)
    ensures TrimEnd(s) == s[..|TrimEnd(s)|]
  {
    if s != [] && IsSpace(s[|s| - 1]) {
      TrimEndPrefix(s[..|s| - 1]);
    }
  }

  /** Everything `TrimStart` drops is whitespace. */
  lemma {:induction false} TrimStartDropsSpace(s: string)
    ensures forall k :: 0 <= k < |s| - |TrimStart(s)| ==> IsSpace(s[k])
  {
    if s != [] && IsSpace(s[0]) {
      TrimStartDropsSpace(s[1..]);
    }
  }

  /** Everything `TrimEnd` drops is whitespace. */
  lemma {:induction false} TrimEndDropsSpace(s: string)
    ensures forall k :: |TrimEnd(s)| <= k < |s| ==> IsSpace(s[k])
  {
    if s != [] && IsSpace(s[|s| - 1]) {
      TrimEndDropsSpace(s[..|s| - 1]);
    }
  }

  /** No whitespace at either end. */
  predicate Stripped(s: string) {
    s == [] || (!IsSpace(s[0]) && !IsSpace(s[|s| - 1]))
  }

  /** Python's `str.strip()`. */
  function Strip(s: string): (r: string)
    ensures Stripped(r) && |r| <= |s|
  {
    TrimEnd(TrimStart(s))
  }

  /** `str.strip()` keeps the slice of `s` that starts after the leading whitespace. */
  lemma StripSlice(s: string)
    ensures var i := |s| - |TrimStart(s)|;
      0 <= i <= i + |Strip(s)| <= |s| && Strip(s) == s[i..i + |Strip(s)|]
  {
    var t := TrimStart(s);
    var i := |s| - |t|;
    TrimStartSuffix(s);
    TrimEndPrefix(t);
    assert t == s[i..];
  }

  /** What `str.strip()` drops on either side of that slice is whitespace. */
  lemma StripDropsSpace(s: string)
    ensures var i := |s| - |TrimStart(s)|;
      && (forall k :: 0 <= k < i ==> IsSpace(s[k]))
      && (forall k :: i + |Strip(s)| <= k < |s| ==> IsSpace(s[k]))
  {
    var t := TrimStart(s);
    TrimStartSuffix(s);
    TrimStartDropsSpace(s);
    TrimEndDropsSpace(t);
    var i := |s| - |t|;
    forall k | i + |Strip(s)| <= k < |s| ensures IsSpace(s[k]) {
      assert s[k] == t[k - i];
    }
  }

  lemma StripOfStripped(s: string)
    requires Stripped(s)
    ensures Strip(s) == s
  {
  }

  /** The characters of `s` that are not in `string.punctuation`, in order. */
  function RemovePunct(s: string): (r: string)
    ensures |r| <= |s|
  {
    if s == [] then [] else (if IsPunct(s[0]) then [] else [s[0]]) + RemovePunct(s[1..])
  }

  /** A character survives punctuation removal exactly when it is in `s` and is not a mark. */
  lemma {:induction false} RemovePunctMembers(s: string)
    ensures forall c :: c in RemovePunct(s) <==> c in s && !IsPunct(c)
  {
    if s != [] {
      RemovePunctMembers(s[1..]);
      assert s == [s[0]] + s[1..];
    }
  }

  lemma {:induction false} RemovePunctOfClean(s: string)
    requires forall c :: c in s ==> !IsPunct(c)
    ensures RemovePunct(s) == s
  {
    if s != [] {
      assert s[0] in s;
      assert forall c :: c in s[1..] ==> c in s;
      RemovePunctOfClean(s[1..]);
    }
  }

  /** A string that lower-casing leaves alone. */
  predicate IsLowerStr(s: string) {
    forall i :: 0 <= i < |s| ==> ToLower(s[i]) == s[i]
  }

  lemma {:induction false} LowerOfLowerStr(s: string)
    requires IsLowerStr(s)
    ensures Lower(s) == s
  {
    if s != [] {
      assert ToLower(s[0]) == s[0];
      assert IsLowerStr(s[1..]) by {
        forall i | 0 <= i < |s| - 1 ensures ToLower(s[1..][i]) == s[1..][i] {
          assert s[1..][i] == s[i + 1];
        }
      }
      LowerOfLowerStr(s[1..]);
    }
  }

  lemma LowerIsLowerStr(s: string)
    ensures IsLowerStr(Lower(s))
  {
    forall i | 0 <= i < |s| ensures ToLower(Lower(s)[i]) == Lower(s)[i] {
      LowerAt(s, i);
      LowerFacts(s[i]);
    }
  }

  /** Every character that is a fixed point of lower-casing in `s` stays so after removal. */
  lemma RemovePunctKeepsLower(s: string)
    requires IsLowerStr(s)
    ensures IsLowerStr(RemovePunct(s))
  {
    var r := RemovePunct(s);
    RemovePunctMembers(s);
    forall i | 0 <= i < |r| ensures ToLower(r[i]) == r[i] {
      assert r[i] in r;
      var k :| 0 <= k < |s| && s[k] == r[i];
    }
  }

  /** Python's `sep.join(parts)`. */
  function Join(sep: string, parts: seq<string>): string {
    if |parts| == 0 then ""
    else if |parts| == 1 then parts[0]
    else Join(sep, parts[..|parts| - 1]) + sep + parts[|parts| - 1]
  }

  /** Python's `sub in s` for strings. */
  predicate Contains(s: string, sub: string)
    decreases |s|
  {
    |sub| <= |s| && (s[..|sub|] == sub || (s != [] && Contains(s[1..], sub)))
  }

  predicate EndsWith(s: string, c: char) {
    s != [] && s[|s| - 1] == c
  }

  predicate IsDigit(c: char) {
    '0' <= c <= '9'
  }

  predicate AllDigits(s: string) {
    forall i :: 0 <= i < |s| ==> IsDigit(s[i])
  }

  function DigitChar(d: nat): (c: char)
    requires d < 10
    ensures IsDigit(c)
  {
    ('0' as int + d) as char
  }

  /** Python's `str(n)` for a natural number. */
  function DecStr(n: nat): string {
    if n < 10 then [DigitChar(n)] else DecStr(n / 10) + [DigitChar(n % 10)]
  }

  /** The value of a string of decimal digits (leading zeros allowed). */
  function ParseDec(s: string): nat
    requires AllDigits(s)
  {
    if s == [] then 0 else ParseDec(s[..|s| - 1]) * 10 + (s[|s| - 1] as int - '0' as int)
  }

  /** `str(n)` is made of digits, as many as `n` has, and reads back as `n`. */
  lemma {:induction false} DecStrFacts(n: nat)
    ensures AllDigits(DecStr(n)) && ParseDec(DecStr(n)) == n
    ensures n < 10 ==> |DecStr(n)| == 1
    ensures 10 <= n < 100 ==> |DecStr(n)| == 2
    ensures 100 <= n < 1000 ==> |DecStr(n)| == 3
    ensures 10 <= n ==> |DecStr(n)| >= 2
    ensures 100 <= n ==> |DecStr(n)| >= 3
  {
    if n >= 10 {
      DecStrFacts(n / 10);
      var s := DecStr(n / 10) + [DigitChar(n % 10)];
      assert s[..|s| - 1] == DecStr(n / 10);
    }
  }

  lemma {:induction false} ParseLeadingZero(s: string)
    requires AllDigits(s)
    ensures AllDigits("0" + s) && ParseDec("0" + s) == ParseDec(s)
  {
    var z := "0" + s;
    if s != [] {
      ParseLeadingZero(s[..|s| - 1]);
      assert z[..|z| - 1] == "0" + s[..|s| - 1];
    } else {
      assert z[..|z| - 1] == [];
    }
  }

  /** Python's `f"{n:02}"`: `str(n)` with a zero in front when it has one digit. */
  function Pad2(n: nat): string {
    if n < 10 then "0" + DecStr(n) else DecStr(n)
  }

  /** Python's `f"{n:03}"`: `str(n)` zero-padded to three digits. */
  function Pad3(n: nat): string {
    if n < 10 then "00" + DecStr(n)
    else if n < 100 then "0" + DecStr(n)
    else DecStr(n)
  }

  /** At least two digits, exactly two below 100, reading back as `n`. */
  lemma Pad2Facts(n: nat)
    ensures AllDigits(Pad2(n)) && |Pad2(n)| >= 2 && ParseDec(Pad2(n)) == n
    ensures n < 100 ==> |Pad2(n)| == 2
  {
    DecStrFacts(n);
    if n < 10 {
      ParseLeadingZero(DecStr(n));
    }
  }

  /** At least three digits, exactly three below 1000, reading back as `n`. */
  lemma Pad3Facts(n: nat)
    ensures AllDigits(Pad3(n)) && |Pad3(n)| >= 3 && ParseDec(Pad3(n)) == n
    ensures n < 1000 ==> |Pad3(n)| == 3
  {
    DecStrFacts(n);
    if n < 10 {
      ParseLeadingZero(DecStr(n));
      ParseLeadingZero("0" + DecStr(n));
      assert "00" + DecStr(n) == "0" + ("0" + DecStr(n));
    } else if n < 100 {
      ParseLeadingZero(DecStr(n));
    }
  }
}
