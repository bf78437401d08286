/**
  The string operations the client performs: `String.prototype.startsWith`,
  the trailing-slash rewrite `s.replace(/\/+$/, "")`, and the decimal
  rendering of an HTTP status inside a template literal.
 */
module Strings {
  import opened Wrappers

  /** `s.startsWith(prefix)`. */
  predicate StartsWith(s: string, prefix: string) {
    |prefix| <= |s| && s[..|prefix|] == prefix
  }

  /** `s.endsWith(suffix)`. */
  predicate EndsWith(s: string, suffix: string) {
    |suffix| <= |s| && s[|s| - |suffix|..] == suffix
  }

  predicate EndsWithSlash(s: string) {
    |s| > 0 && s[|s| - 1] == '/'
  }

  predicate AllSlashes(s: string) {
    forall i :: 0 <= i < |s| ==> s[i] == '/'
  }

  /** Removes every trailing '/': what remains is a prefix of the input that
      does not end in '/', and what was removed consists of slashes only. */
  function StripTrailingSlashes(s: string): (r: string)
    ensures r <= s
    ensures !EndsWithSlash(r)
    ensures AllSlashes(s[|r|..])
    decreases |s|
  {
    if EndsWithSlash(s) then StripTrailingSlashes(s[..|s| - 1]) else s
  }

  /** Stripping is idempotent: a stripped URL is left alone. */
  lemma StripIdempotent(s: string)
    ensures StripTrailingSlashes(StripTrailingSlashes(s)) == StripTrailingSlashes(s)
  {
  }

  /** The decomposition into a body not ending in '/' followed by slashes is
      unique, so stripping returns exactly that body. */
  lemma {:induction false} StripUnique(p: string, t: string)
    requires !EndsWithSlash(p) && AllSlashes(t)
    ensures StripTrailingSlashes(p + t) == p
    decreases |t|
  {
    if t == [] {
      assert p + t == p;
    } else {
      var t' := t[..|t| - 1];
      assert (p + t)[..|p + t| - 1] == p + t';
      StripUnique(p, t');
    }
  }

  // ---------------------------------------------------------------------
  // The regular expression /\/+$/ (no flags) as JavaScript matches it: the
  // engine tries start positions from left to right; at start i the greedy
  // `\/+` followed by `$` succeeds exactly when s[i..] is a non-empty run of
  // slashes, and the match then spans s[i..]. `replace` substitutes "" for
  // the first match only.
  // ---------------------------------------------------------------------

  /** The start of the leftmost match of /\/+$/ at or after position i. */
  function TrailingRunMatch(s: string, i: nat): (r: Option<nat>)
    requires i <= |s|
    ensures r.Some? ==> i <= r.value < |s| && AllSlashes(s[r.value..])
    decreases |s| - i
  {
    if i == |s| then None
    else if AllSlashes(s[i..]) then Some(i)
    else TrailingRunMatch(s, i + 1)
  }

  /** `s.replace(/\/+$/, "")`. */
  function ReplaceTrailingSlashRun(s: string): string {
    match TrailingRunMatch(s, 0)
    case None => s
    case Some(i) => s[..i] + "" + s[|s|..]
  }

  lemma {:induction false} TrailingRunMatchFinds(s: string, i: nat)
    requires i <= |StripTrailingSlashes(s)|
    ensures var k := |StripTrailingSlashes(s)|;
      TrailingRunMatch(s, i) == if k < |s| then Some(k) else None
    decreases |StripTrailingSlashes(s)| - i
  {
    var k := |StripTrailingSlashes(s)|;
    if i == k {
      if k < |s| {
        assert AllSlashes(s[i..]);
      }
    } else {
      assert s[i..][k - 1 - i] == s[k - 1];
      assert StripTrailingSlashes(s)[k - 1] == s[k - 1];
      assert !AllSlashes(s[i..]);
      TrailingRunMatchFinds(s, i + 1);
    }
  }

  /** The recursive definition agrees with the regular-expression rewrite the
      client performs. */
  lemma StripMatchesRegexReplace(s: string)
    ensures ReplaceTrailingSlashRun(s) == StripTrailingSlashes(s)
  {
    TrailingRunMatchFinds(s, 0);
    var k := |StripTrailingSlashes(s)|;
    if k < |s| {
      assert s[..k] + "" + s[|s|..] == s[..k];
    }
  }

  // ---------------------------------------------------------------------
  // Decimal rendering of a non-negative integer, as `${n}` does.
  // ---------------------------------------------------------------------

  predicate IsDigit(c: char) {
    '0' <= c <= '9'
  }

  predicate AllDigits(s: string) {
    forall i :: 0 <= i < |s| ==> IsDigit(s[i])
  }

  function DigitChar(d: nat): (c: char)
    requires d < 10
    ensures IsDigit(c)
    ensures (c as int) - ('0' as int) == d
  {
    ('0' as int + d) as char
  }

  /** The shortest decimal numeral of n: digits only, and no leading zero
      except for "0" itself. */
  function DecimalString(n: nat): (r: string)
    ensures |r| > 0 && AllDigits(r)
    ensures r[0] == '0' ==> r == "0" && n == 0
    decreases n
  {
    if n < 10 then [DigitChar(n)] else DecimalString(n / 10) + [DigitChar(n % 10)]
  }

  /** The value a numeral denotes. */
  function ParseDecimal(s: string): nat
    requires AllDigits(s)
    decreases |s|
  {
    if s == [] then 0
    else ParseDecimal(s[..|s| - 1]) * 10 + ((s[|s| - 1] as int) - ('0' as int))
  }

  /** Rendering and reading back a numeral is the identity. */
  lemma {:induction false} ParseDecimalString(n: nat)
    ensures ParseDecimal(DecimalString(n)) == n
    decreases n
  {
    var r := DecimalString(n);
    if n < 10 {
      assert r[..|r| - 1] == [];
    } else {
      assert r[..|r| - 1] == DecimalString(n / 10);
      ParseDecimalString(n / 10);
    }
  }
}
