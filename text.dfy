/** The string operations of Rust's `str` that the tool relies on: `replace`, `trim`,
    `to_lowercase() == "y"` and `parse::<usize>()`. */
module Text {

  import opened Wrappers

  /** `s` contains `pat` somewhere. */
  predicate Contains(s: string, pat: string)
    decreases |s|
  {
    |s| >= |pat| && (s[..|pat|] == pat || (|s| > 0 && Contains(s[1..], pat)))
  }

  /** `str::replace`: every non-overlapping occurrence of `pat`, found left to right, is replaced
      by `rep`. */
  function ReplaceAll(s: string, pat: string, rep: string): (r: string)
    requires pat != []
    decreases |s|
  {
    if |s| < |pat| then s
    else if s[..|pat|] == pat then rep + ReplaceAll(s[|pat|..], pat, rep)
    else [s[0]] + ReplaceAll(s[1..], pat, rep)
  }

  /** Text in which `pat` does not occur is returned unchanged. */
  lemma {:induction false} ReplaceAllAbsent(s: string, pat: string, rep: string)
    requires pat != [] && !Contains(s, pat)
    ensures ReplaceAll(s, pat, rep) == s
  {
    if |s| >= |pat| {
      ReplaceAllAbsent(s[1..], pat, rep);
      assert [s[0]] + s[1..] == s;
    }
  }

  /** Text in which `pat` occurs ends up containing `rep`. */
  lemma {:induction false} ReplaceAllPresent(s: string, pat: string, rep: string)
    requires pat != [] && Contains(s, pat)
    ensures Contains(ReplaceAll(s, pat, rep), rep)
  {
    if s[..|pat|] == pat {
      var t := ReplaceAll(s[|pat|..], pat, rep);
      assert (rep + t)[..|rep|] == rep;
    } else {
      ReplaceAllPresent(s[1..], pat, rep);
      var t := ReplaceAll(s[1..], pat, rep);
      assert ([s[0]] + t)[1..] == t;
    }
  }

  /** A pattern `replace` searches for; the tool never searches for the empty string. */
  type Pattern = s: string | s != [] witness "?"

  /** One `.replace(from, to)` call of a chain. */
  datatype Replacement = Replacement(from: Pattern, to: string)

  /** `s.replace(chain[0].from, chain[0].to).replace(chain[1].from, ...)...`, in chain order. */
  function ReplaceChain(s: string, chain: seq<Replacement>): string
    decreases |chain|
  {
    if chain == [] then s
    else ReplaceChain(ReplaceAll(s, chain[0].from, chain[0].to), chain[1..])
  }

  /** A chain applied to text that contains none of its patterns leaves it unchanged. */
  lemma {:induction false} ReplaceChainAbsent(s: string, chain: seq<Replacement>)
    requires forall i :: 0 <= i < |chain| ==> !Contains(s, chain[i].from)
    ensures ReplaceChain(s, chain) == s
    decreases |chain|
  {
    if chain != [] {
      ReplaceAllAbsent(s, chain[0].from, chain[0].to);
      ReplaceChainAbsent(s, chain[1..]);
    }
  }

  /** Rust's `char::is_whitespace`: the Unicode White_Space property. */
  predicate IsWhiteSpace(c: char) {
    var n := c as int;
    (0x09 <= n <= 0x0D) || n == 0x20 || n == 0x85 || n == 0xA0 || n == 0x1680
    || (0x2000 <= n <= 0x200A) || n == 0x2028 || n == 0x2029 || n == 0x202F || n == 0x205F
    || n == 0x3000
  }

  /** Every character of `s` is white space. */
  predicate AllWhiteSpace(s: string) {
    forall i :: 0 <= i < |s| ==> IsWhiteSpace(s[i])
  }

  function TrimStart(s: string): string {
    if s != [] && IsWhiteSpace(s[0]) then TrimStart(s[1..]) else s
  }

  function TrimEnd(s: string): string {
    if s != [] && IsWhiteSpace(s[|s| - 1]) then TrimEnd(s[..|s| - 1]) else s
  }

  /** `trim_start` keeps a suffix of its input. */
  lemma {:induction false} TrimStartSuffix(s: string)
    ensures |TrimStart(s)| <= |s| && TrimStart(s) == s[|s| - |TrimStart(s)|..]
  {
    if s != [] && IsWhiteSpace(s[0]) {
      var r := TrimStart(s[1..]);
      TrimStartSuffix(s[1..]);
      assert s[1..][|s| - 1 - |r|..] == s[|s| - |r|..];
    }
  }

  /** Every character `trim_start` drops is white space. */
  lemma {:induction false} TrimStartDrops(s: string)
    ensures |TrimStart(s)| <= |s| && AllWhiteSpace(s[..|s| - |TrimStart(s)|])
  {
    if s != [] && IsWhiteSpace(s[0]) {
      var n := |s| - |TrimStart(s[1..])|;
      TrimStartDrops(s[1..]);
      assert s[..n] == [s[0]] + s[1..][..n - 1];
    }
  }

  /** `trim_start` removes only white space from the front, and all of it: it keeps a suffix that
      does not start with white space, and every character dropped is white space. */
  lemma TrimStartSpec(s: string)
    ensures var r := TrimStart(s);
            |r| <= |s| && r == s[|s| - |r|..] && (r == [] || !IsWhiteSpace(r[0]))
    ensures AllWhiteSpace(s[..|s| - |TrimStart(s)|])
  {
    TrimStartSuffix(s);
    TrimStartDrops(s);
  }

  /** `trim_end` removes only white space from the back, and all of it: it keeps a prefix that
      does not end with white space, and every character dropped is white space. */
  lemma {:induction false} TrimEndSpec(s: string)
    ensures var r := TrimEnd(s);
            |r| <= |s| && r == s[..|r|] && (r == [] || !IsWhiteSpace(r[|r| - 1]))
    ensures AllWhiteSpace(s[|TrimEnd(s)|..])
  {
    if s != [] && IsWhiteSpace(s[|s| - 1]) {
      var r := TrimEnd(s[..|s| - 1]);
      TrimEndSpec(s[..|s| - 1]);
      assert s[..|s| - 1][..|r|] == s[..|r|];
      assert s[|r|..] == s[..|s| - 1][|r|..] + [s[|s| - 1]];
    }
  }

  /** `str::trim`: the text without its leading and trailing white space. */
  function Trim(s: string): string {
    TrimEnd(TrimStart(s))
  }

  /** What `trim` keeps is a piece of the original text that neither starts nor ends with white
      space, and everything around it is white space, so it is the longest such piece. */
  lemma TrimSpec(s: string)
    ensures var r, a := Trim(s), |s| - |TrimStart(s)|;
            (r == [] || (!IsWhiteSpace(r[0]) && !IsWhiteSpace(r[|r| - 1])))
            && 0 <= a && a + |r| <= |s| && s[a..a + |r|] == r
            && AllWhiteSpace(s[..a]) && AllWhiteSpace(s[a + |r|..])
  {
    var t := TrimStart(s);
    TrimStartSpec(s);
    TrimEndSpec(t);
    var r := TrimEnd(t);
    var a := |s| - |t|;
    assert s[a..a + |r|] == t[..|r|];
    assert s[a + |r|..] == t[|r|..];
  }

  /** Trimming is idempotent: an answer is read the same however often it is trimmed. */
  lemma TrimIdempotent(s: string)
    ensures Trim(Trim(s)) == Trim(s)
  {
    var t := Trim(s);
    TrimSpec(s);
    TrimFixed(t);
  }

  /** Text that neither starts nor ends with white space is its own trim. */
  lemma TrimFixed(t: string)
    requires t == [] || (!IsWhiteSpace(t[0]) && !IsWhiteSpace(t[|t| - 1]))
    ensures Trim(t) == t
  {
    if t != [] {
      assert TrimStart(t) == t;
      assert TrimEnd(t) == t;
    }
  }

  /** ASCII lower-casing; characters outside A-Z are kept. */
  function LowerAscii(s: string): (r: string)
    ensures |r| == |s|
  {
    seq(|s|, i requires 0 <= i < |s| => if 'A' <= s[i] <= 'Z' then (s[i] as int + 32) as char else s[i])
  }

  /** `answer.to_lowercase() == "y"`: no character other than 'y' and 'Y' lower-cases to "y", so
      comparing the ASCII lower-casing decides the same question. */
  predicate IsYes(answer: string) {
    LowerAscii(answer) == "y"
  }

  /** A yes/no answer is yes exactly for "y" and "Y". */
  lemma YesAnswers(answer: string)
    ensures IsYes(answer) <==> answer == "y" || answer == "Y"
  {
    if IsYes(answer) {
      assert |answer| == 1 && LowerAscii(answer)[0] == 'y';
    }
  }

  predicate IsDigit(c: char) {
    '0' <= c <= '9'
  }

  function DigitValue(c: char): (d: nat)
    requires IsDigit(c)
    ensures d < 10
  {
    c as int - '0' as int
  }

  /** `usize::MAX` on the 64-bit hosts the tool runs on. */
  const UsizeMax: nat := 0x1_0000_0000_0000_0000 - 1

  /** The value of a string of decimal digits. */
  function DigitsValue(s: string): nat
    requires AllDigits(s)
  {
    if s == [] then 0
    else DigitsValue(s[..|s| - 1]) * 10 + DigitValue(s[|s| - 1])
  }

  /** The messages of Rust's `ParseIntError` kinds. */
  const EmptyInput := "cannot parse integer from empty string"
  const InvalidDigit := "invalid digit found in string"
  const PosOverflow := "number too large to fit in target type"

  predicate AllDigits(s: string) {
    forall i :: 0 <= i < |s| ==> IsDigit(s[i])
  }

  /** The digit loop of `usize::from_str`: digits are accumulated left to right, and the first
      non-digit or the first prefix whose value exceeds `usize::MAX` decides the error. */
  function ScanDigits(digits: string, k: nat): (r: Result<nat>)
    requires k <= |digits| && AllDigits(digits[..k]) && DigitsValue(digits[..k]) <= UsizeMax
    decreases |digits| - k
  {
    if k == |digits| then
      assert digits[..k] == digits;
      Ok(DigitsValue(digits))
    else if !IsDigit(digits[k]) then Err(InvalidDigit)
    else
      assert digits[..k + 1][..k] == digits[..k];
      if DigitsValue(digits[..k + 1]) > UsizeMax then Err(PosOverflow)
      else ScanDigits(digits, k + 1)
  }

  /** `s.parse::<usize>()`: an optional '+' then decimal digits; a lone sign, a '-' or any other
      character is an invalid digit, and a value above `usize::MAX` an overflow. */
  function ParseUsize(s: string): (r: Result<nat>)
  {
    if s == [] then Err(EmptyInput)
    else if (s[0] == '+' || s[0] == '-') && |s| == 1 then Err(InvalidDigit)
    else
      var digits := if s[0] == '+' then s[1..] else s;
      assert digits[..0] == [];
      ScanDigits(digits, 0)
  }

  /** The counts `parse` accepts: an optional '+' followed by one or more digits whose value fits
      in a usize. */
  predicate IsCount(s: string) {
    var digits := if s != [] && s[0] == '+' then s[1..] else s;
    digits != [] && AllDigits(digits) && DigitsValue(digits) <= UsizeMax
  }

  /** Parsing accepts exactly the well-formed counts, and yields their value. */
  lemma ParseUsizeAccepts(s: string)
    ensures ParseUsize(s).Ok? <==> IsCount(s)
    ensures ParseUsize(s).Ok? ==> ParseUsize(s).value <= UsizeMax
    ensures IsCount(s) ==> ParseUsize(s).value == DigitsValue(if s[0] == '+' then s[1..] else s)
  {
    if s != [] && !((s[0] == '+' || s[0] == '-') && |s| == 1) {
      var digits := if s[0] == '+' then s[1..] else s;
      assert digits[..0] == [];
      ScanDigitsAccepts(digits, 0);
    }
  }

  lemma {:induction false} ScanDigitsAccepts(digits: string, k: nat)
    requires k <= |digits| && AllDigits(digits[..k]) && DigitsValue(digits[..k]) <= UsizeMax
    ensures ScanDigits(digits, k).Ok? <==> AllDigits(digits) && DigitsValue(digits) <= UsizeMax
    ensures ScanDigits(digits, k).Ok? ==> ScanDigits(digits, k).value == DigitsValue(digits)
    decreases |digits| - k
  {
    if k == |digits| {
      assert digits[..k] == digits;
    } else if !IsDigit(digits[k]) {
    } else {
      assert digits[..k + 1][..k] == digits[..k];
      if DigitsValue(digits[..k + 1]) > UsizeMax {
        if AllDigits(digits) {
          PrefixValueBound(digits, k + 1);
        }
      } else {
        ScanDigitsAccepts(digits, k + 1);
      }
    }
  }

  /** A prefix of a digit string is worth no more than the whole string. */
  lemma {:induction false} PrefixValueBound(s: string, k: nat)
    requires AllDigits(s) && k <= |s|
    ensures AllDigits(s[..k]) && DigitsValue(s[..k]) <= DigitsValue(s)
    decreases |s| - k
  {
    if k < |s| {
      PrefixValueBound(s, k + 1);
      assert s[..k + 1][..k] == s[..k];
    } else {
      assert s[..k] == s;
    }
  }

  /** The decimal representation of `n`, as Rust's `{}` formats an integer. */
  function Decimal(n: nat): (s: string)
    ensures s != [] && AllDigits(s) && s[0] != '+'
  {
    var d := ['0' + (n % 10) as char];
    if n < 10 then d else Decimal(n / 10) + d
  }

  /** Round trip: every count that fits in a usize parses back from its decimal form. */
  lemma {:induction false} ParseDecimal(n: nat)
    requires n <= UsizeMax
    ensures ParseUsize(Decimal(n)) == Ok(n)
  {
    DigitsValueDecimal(n);
    ParseUsizeAccepts(Decimal(n));
  }

  lemma {:induction false} DigitsValueDecimal(n: nat)
    ensures DigitsValue(Decimal(n)) == n
  {
    var s := Decimal(n);
    if n >= 10 {
      DigitsValueDecimal(n / 10);
      assert s[..|s| - 1] == Decimal(n / 10);
    }
  }

  /** `format!` of a template whose every `{}` takes the same argument: the template's literal
      pieces with `arg` between each two of them. */
  function Format(pieces: seq<string>, arg: string): string
    requires pieces != []
    decreases |pieces|
  {
    if |pieces| == 1 then pieces[0] else pieces[0] + arg + Format(pieces[1..], arg)
  }

  /** Where the `k`-th substitution of an argument of length `n` starts. */
  function Offset(pieces: seq<string>, k: nat, n: nat): nat
    requires k < |pieces|
    decreases k
  {
    if k == 0 then |pieces[0]| else |pieces[0]| + n + Offset(pieces[1..], k - 1, n)
  }

  /** Every placeholder of the template holds the argument, and is followed by the next literal
      piece. */
  lemma {:induction false} FormatAt(pieces: seq<string>, arg: string, k: nat)
    requires k + 1 < |pieces|
    ensures var s, p := Format(pieces, arg), Offset(pieces, k, |arg|);
            p + |arg| + |pieces[k + 1]| <= |s|
            && s[p..p + |arg|] == arg
            && s[p + |arg|..p + |arg| + |pieces[k + 1]|] == pieces[k + 1]
    decreases k
  {
    var rest := Format(pieces[1..], arg);
    var s := pieces[0] + arg + rest;
    assert Format(pieces, arg) == s;
    if k == 0 {
      if |pieces| == 2 {
        assert rest == pieces[1];
      } else {
        assert rest == pieces[1] + arg + Format(pieces[2..], arg);
      }
      assert s[|pieces[0]| + |arg|..] == rest;
    } else {
      FormatAt(pieces[1..], arg, k - 1);
      var q := Offset(pieces[1..], k - 1, |arg|);
      assert s[|pieces[0]| + |arg|..] == rest;
      assert s[|pieces[0]| + |arg| + q..|pieces[0]| + |arg| + q + |arg|] == rest[q..q + |arg|];
    }
  }

  /** The text grows by the argument's length at each placeholder. */
  lemma {:induction false} FormatLength(pieces: seq<string>, arg: string)
    requires pieces != []
    ensures |Format(pieces, arg)| == Offset(pieces, |pieces| - 1, |arg|)
    decreases |pieces|
  {
    if |pieces| > 1 {
      FormatLength(pieces[1..], arg);
    }
  }

  /** Each placeholder before the `k`-th moves it by the argument's length. */
  lemma {:induction false} OffsetLinear(pieces: seq<string>, k: nat, n: nat)
    requires k < |pieces|
    ensures Offset(pieces, k, n) == Offset(pieces, k, 0) + k * n
    decreases k
  {
    if k > 0 {
      OffsetLinear(pieces[1..], k - 1, n);
    }
  }
}
