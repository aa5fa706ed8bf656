/** `generate_code` in `email_verification.rs`: rejection sampling over random words, then zero padding. */
module CodeGenerator {
  import opened Common

  const WORD_MAX: nat := 0xFFFF_FFFF
  const CODE_DIGITS: nat := 6

  function Pow10(k: nat): (p: nat)
    ensures p > 0
  {
    if k == 0 then 1 else 10 * Pow10(k - 1)
  }

  /** The largest word the sampler keeps. */
  function Limit(n: nat, m: nat): int
    requires m > 0
  {
    n - n % m - (m - 1)
  }

  function Zeros(k: nat): string
  {
    if k == 0 then "" else "0" + Zeros(k - 1)
  }

  /** `{value:0width$}`: zeros on the left up to the width, never truncated. */
  function ZeroPadded(v: nat, width: nat): string
  {
    Zeros(if |Decimal(v)| < width then width - |Decimal(v)| else 0) + Decimal(v)
  }

  function CodeOf(word: nat): string
  {
    ZeroPadded(word % Pow10(CODE_DIGITS), CODE_DIGITS)
  }

  predicate Kept(word: nat)
  {
    word <= Limit(WORD_MAX, Pow10(CODE_DIGITS))
  }

  /** The sampling loop over the words the generator will draw; `None` when none of them is kept. */
  method GenerateCode(words: seq<nat>) returns (code: Option<string>)
    ensures code.None? <==> forall i :: 0 <= i < |words| ==> !Kept(words[i])
    ensures code.Some? ==> exists i :: 0 <= i < |words| && Kept(words[i]) && code.value == CodeOf(words[i])
                                       && forall j :: 0 <= j < i ==> !Kept(words[j])
  {
    var modulus := Pow10(CODE_DIGITS);
    var limit := WORD_MAX - WORD_MAX % modulus - (modulus - 1);
    var i := 0;
    while i < |words|
      invariant 0 <= i <= |words|
      invariant forall j :: 0 <= j < i ==> !Kept(words[j])
    {
      if words[i] <= limit {
        return Some(ZeroPadded(words[i] % modulus, CODE_DIGITS));
      }
      i := i + 1;
    }
    return None;
  }

  // ---------------------------------------------------------------- how many words give each residue

  /** The words below `bound` with residue `r`. */
  ghost function Preimages(bound: nat, m: nat, r: nat): set<nat>
    requires m > 0
  {
    set w: nat | w < bound && w % m == r
  }

  lemma NextQuotient(v: nat, m: nat)
    requires m > 0
    ensures if v % m == m - 1 then (v + 1) / m == v / m + 1 && (v + 1) % m == 0
            else (v + 1) / m == v / m && (v + 1) % m == v % m + 1
  {
    var q, r := v / m, v % m;
    assert v == q * m + r;
    if r == m - 1 {
      assert v + 1 == (q + 1) * m;
      QuotientUnique(v + 1, q + 1, 0, m);
    } else {
      QuotientUnique(v + 1, q, r + 1, m);
    }
  }

  lemma SmallMultiple(d: int, m: nat)
    requires -(m as int) < d * m < m
    ensures d == 0
  {
  }

  lemma QuotientUnique(v: nat, q: nat, r: nat, m: nat)
    requires m > 0 && v == q * m + r && r < m
    ensures v / m == q && v % m == r
  {
    var d := v / m - q;
    assert v == v / m * m + v % m;
    assert d * m == r - v % m;
    SmallMultiple(d, m);
  }

  lemma {:induction false} PreimageCount(bound: nat, m: nat, r: nat)
    requires m > 0 && r < m
    ensures |Preimages(bound, m, r)| == bound / m + if r < bound % m then 1 else 0
  {
    if bound == 0 {
      assert Preimages(0, m, r) == {};
      QuotientUnique(0, 0, 0, m);
    } else {
      var last := bound - 1;
      PreimageCount(last, m, r);
      NextQuotient(last, m);
      if last % m == r {
        assert Preimages(bound, m, r) == Preimages(last, m, r) + {last};
      } else {
        assert Preimages(bound, m, r) == Preimages(last, m, r);
      }
    }
  }

  lemma LimitShape(n: nat, m: nat)
    requires 1 <= m <= n
    ensures n / m >= 1 && Limit(n, m) == (n / m - 1) * m + 1 && 1 <= Limit(n, m) <= n
  {
    var q := n / m;
    assert n == q * m + n % m;
    assert (q - 1) * m == q * m - m;
  }

  /** The kept range is not a whole number of blocks: residues 0 and 1 get one word more. */
  lemma KeptResidues(n: nat, m: nat, r: nat)
    requires 2 <= m <= n && r < m
    ensures Limit(n, m) >= 0
    ensures |Preimages(Limit(n, m) + 1, m, r)| == if r < 2 then n / m else n / m - 1
  {
    LimitShape(n, m);
    var bound := Limit(n, m) + 1;
    PreimageCount(bound, m, r);
    if m == 2 {
      assert bound == n / m * m;
      QuotientUnique(bound, n / m, 0, m);
    } else {
      QuotientUnique(bound, n / m - 1, 2, m);
    }
  }

  ghost predicate Uniform(bound: nat, m: nat)
    requires m > 0
  {
    forall r: nat, s: nat :: r < m && s < m ==> |Preimages(bound, m, r)| == |Preimages(bound, m, s)|
  }

  /** Exactly uniform only for moduli up to two. */
  lemma UniformIff(n: nat, m: nat)
    requires 1 <= m <= n
    ensures Limit(n, m) >= 0
    ensures Uniform(Limit(n, m) + 1, m) <==> m <= 2
  {
    LimitShape(n, m);
    var bound := Limit(n, m) + 1;
    if m >= 2 {
      forall r: nat | r < m ensures |Preimages(bound, m, r)| == if r < 2 then n / m else n / m - 1 {
        KeptResidues(n, m, r);
      }
    }
    if m >= 3 {
      assert |Preimages(bound, m, 0)| != |Preimages(bound, m, 2)|;
    }
  }

  /** One word fewer than the block boundary would make every modulus uniform. */
  lemma BlockBoundaryUniform(n: nat, m: nat)
    requires 1 <= m <= n
    ensures Uniform(n - n % m, m)
  {
    var bound := n - n % m;
    QuotientUnique(bound, n / m, 0, m);
    forall r: nat | r < m ensures |Preimages(bound, m, r)| == n / m {
      PreimageCount(bound, m, r);
    }
  }

  // ---------------------------------------------------------------- zero padding is a bijection

  predicate AllDigits(s: string)
  {
    forall i :: 0 <= i < |s| ==> '0' <= s[i] <= '9'
  }

  /** Exactly `k` digits, most significant first. */
  function Fixed(v: nat, k: nat): (s: string)
    ensures |s| == k && AllDigits(s)
  {
    if k == 0 then "" else Fixed(v / 10, k - 1) + [DigitChar(v % 10)]
  }

  function Value(s: string): nat
    requires AllDigits(s)
  {
    if s == "" then 0 else 10 * Value(s[..|s| - 1]) + (s[|s| - 1] as int - 48)
  }

  lemma {:induction false} FixedOfZero(k: nat)
    ensures Fixed(0, k) == Zeros(k)
  {
    if k > 0 {
      FixedOfZero(k - 1);
      ZerosSnoc(k - 1);
    }
  }

  lemma {:induction false} ZerosSnoc(k: nat)
    ensures Zeros(k) + "0" == "0" + Zeros(k)
  {
    if k > 0 {
      ZerosSnoc(k - 1);
      ConcatAssociative("0", Zeros(k - 1), "0");
    }
  }

  lemma {:induction false} DecimalFits(v: nat, k: nat)
    requires k >= 1 && v < Pow10(k)
    ensures |Decimal(v)| <= k
    ensures Zeros(k - |Decimal(v)|) + Decimal(v) == Fixed(v, k)
    decreases k
  {
    if v < 10 {
      FixedOfZero(k - 1);
    } else {
      DecimalFits(v / 10, k - 1);
      ConcatAssociative(Zeros(k - |Decimal(v)|), Decimal(v / 10), [DigitChar(v % 10)]);
    }
  }

  lemma {:induction false} ValueOfFixed(v: nat, k: nat)
    requires v < Pow10(k)
    ensures Value(Fixed(v, k)) == v
  {
    if k > 0 {
      ValueOfFixed(v / 10, k - 1);
      assert Fixed(v, k)[..k - 1] == Fixed(v / 10, k - 1);
    }
  }

  lemma {:induction false} FixedOfValue(s: string)
    requires AllDigits(s)
    ensures Value(s) < Pow10(|s|) && Fixed(Value(s), |s|) == s
  {
    if s != "" {
      var init := s[..|s| - 1];
      FixedOfValue(init);
      var d := s[|s| - 1] as int - 48;
      assert Value(s) / 10 == Value(init) && Value(s) % 10 == d;
      assert DigitChar(d) == s[|s| - 1];
      assert init + [s[|s| - 1]] == s;
    }
  }

  /** Zero padding maps the numbers below 10^k one-to-one onto the k-digit strings. */
  lemma PaddingBijection(v: nat, s: string, k: nat)
    requires k >= 1
    ensures v < Pow10(k) ==> |ZeroPadded(v, k)| == k && AllDigits(ZeroPadded(v, k))
    ensures |s| == k && AllDigits(s) ==> Value(s) < Pow10(k)
    ensures v < Pow10(k) && |s| == k && AllDigits(s) ==> (ZeroPadded(v, k) == s <==> Value(s) == v)
  {
    if v < Pow10(k) {
      DecimalFits(v, k);
      ValueOfFixed(v, k);
    }
    if |s| == k && AllDigits(s) {
      FixedOfValue(s);
    }
  }

  /** How many random words yield a given code: 4294 for the two lowest codes, 4293 for every other. */
  lemma WordsPerCode(code: string)
    requires |code| == CODE_DIGITS && AllDigits(code)
    ensures var words := set w: nat | w <= WORD_MAX && Kept(w) && CodeOf(w) == code;
            |words| == if code == "000000" || code == "000001" then 4294 else 4293
  {
    var m := Pow10(CODE_DIGITS);
    SixDigits();
    var words := set w: nat | w <= WORD_MAX && Kept(w) && CodeOf(w) == code;
    LimitShape(WORD_MAX, m);
    PaddingBijection(0, code, CODE_DIGITS);
    forall w: nat ensures CodeOf(w) == code <==> w % m == Value(code) {
      PaddingBijection(w % m, code, CODE_DIGITS);
    }
    assert words == Preimages(Limit(WORD_MAX, m) + 1, m, Value(code));
    KeptResidues(WORD_MAX, m, Value(code));
    LowCodes(code);
  }

  lemma SixDigits()
    ensures Pow10(CODE_DIGITS) == 1_000_000
  {
    assert Pow10(3) == 1000;
    assert Pow10(4) == 10_000;
    assert Pow10(5) == 100_000;
  }

  lemma LowestCodes()
    ensures Fixed(0, CODE_DIGITS) == "000000" && Fixed(1, CODE_DIGITS) == "000001"
  {
    assert Fixed(0, 1) == "0" && Fixed(0, 2) == "00" && Fixed(0, 3) == "000";
    assert Fixed(0, 4) == "0000" && Fixed(0, 5) == "00000";
  }

  lemma LowCodes(code: string)
    requires |code| == CODE_DIGITS && AllDigits(code)
    ensures Value(code) < 2 <==> code == "000000" || code == "000001"
  {
    FixedOfValue(code);
    LowestCodes();
    SixDigits();
    ValueOfFixed(0, CODE_DIGITS);
    ValueOfFixed(1, CODE_DIGITS);
  }
}
