/** Datatypes and text helpers shared by every module. */
module Common {

  datatype Option<+T> = None | Some(value: T)

  datatype Result<+T, +E> = Ok(value: T) | Err(error: E)

  function Min(a: int, b: int): int { if a <= b then a else b }

  lemma ConcatAssociative<T>(a: seq<T>, b: seq<T>, c: seq<T>)
    ensures (a + b) + c == a + (b + c)
  {
  }

  /** Concatenation of a list of sequences. */
  function Flatten<T>(ss: seq<seq<T>>): seq<T>
  {
    if ss == [] then [] else ss[0] + Flatten(ss[1..])
  }

  lemma {:induction false} FlattenSnoc<T>(ss: seq<seq<T>>, s: seq<T>)
    ensures Flatten(ss + [s]) == Flatten(ss) + s
  {
    if ss == [] {
      assert [s][1..] == [];
    } else {
      assert (ss + [s])[1..] == ss[1..] + [s];
      FlattenSnoc(ss[1..], s);
      ConcatAssociative(ss[0], Flatten(ss[1..]), s);
    }
  }

  /** The concatenated images of the elements, in order. */
  function Collect<A, B>(f: A -> seq<B>, s: seq<A>): seq<B>
  {
    if s == [] then [] else Collect(f, s[..|s| - 1]) + f(s[|s| - 1])
  }

  lemma CollectSnoc<A, B>(f: A -> seq<B>, s: seq<A>, a: A)
    ensures Collect(f, s + [a]) == Collect(f, s) + f(a)
  {
    assert (s + [a])[..|s|] == s;
  }

  lemma {:induction false} CollectAppend<A, B>(f: A -> seq<B>, s: seq<A>, t: seq<A>)
    ensures Collect(f, s + t) == Collect(f, s) + Collect(f, t)
  {
    if t == [] {
      assert s + t == s;
    } else {
      var init, last := t[..|t| - 1], t[|t| - 1];
      calc {
        Collect(f, s + t);
        { assert t == init + [last]; ConcatAssociative(s, init, [last]); }
        Collect(f, (s + init) + [last]);
        { CollectSnoc(f, s + init, last); }
        Collect(f, s + init) + f(last);
        { CollectAppend(f, s, init); }
        Collect(f, s) + Collect(f, init) + f(last);
        { ConcatAssociative(Collect(f, s), Collect(f, init), f(last)); }
        Collect(f, s) + Collect(f, t);
      }
    }
  }

  predicate Distinct<T(==)>(s: seq<T>)
  {
    forall i, j :: 0 <= i < j < |s| ==> s[i] != s[j]
  }

  lemma DistinctSnoc<T>(s: seq<T>, x: T)
    ensures Distinct(s + [x]) <==> Distinct(s) && x !in s
  {
    var all := s + [x];
    assert forall i :: 0 <= i < |s| ==> all[i] == s[i];
    assert all[|s|] == x;
    if Distinct(all) {
      forall i | 0 <= i < |s| ensures s[i] != x {
        assert all[i] != all[|s|];
      }
      forall i, j | 0 <= i < j < |s| ensures s[i] != s[j] {
        assert all[i] != all[j];
      }
    }
  }

  lemma DistinctAppend<T>(a: seq<T>, b: seq<T>)
    requires Distinct(a) && Distinct(b) && forall x :: x in a ==> x !in b
    ensures Distinct(a + b)
  {
    var all := a + b;
    forall i, j | 0 <= i < j < |all| ensures all[i] != all[j] {
      if i < |a| <= j {
        assert all[i] in a && all[j] == b[j - |a|] && all[j] in b;
      }
    }
  }

  lemma SameMultisetSameSet<T>(a: seq<T>, b: seq<T>)
    requires multiset(a) == multiset(b)
    ensures forall x :: x in a <==> x in b
    ensures Distinct(b) ==> Distinct(a)
  {
    forall x ensures x in a <==> x in b {
      assert x in multiset(a) <==> x in multiset(b);
    }
    if Distinct(b) {
      DistinctCounts(b);
      CountsDistinct(a);
    }
  }

  lemma {:induction false} DistinctCounts<T>(s: seq<T>)
    requires Distinct(s)
    ensures forall x :: multiset(s)[x] <= 1
  {
    if s != [] {
      var init, last := s[..|s| - 1], s[|s| - 1];
      assert s == init + [last];
      DistinctSnoc(init, last);
      DistinctCounts(init);
    }
  }

  lemma {:induction false} CountsDistinct<T>(s: seq<T>)
    requires forall x :: multiset(s)[x] <= 1
    ensures Distinct(s)
  {
    if s != [] {
      var init, last := s[..|s| - 1], s[|s| - 1];
      assert s == init + [last];
      assert forall x :: multiset(s)[x] == multiset(init)[x] + if x == last then 1 else 0;
      assert last !in multiset(init);
      CountsDistinct(init);
      DistinctSnoc(init, last);
    }
  }

  lemma {:induction false} SubsetSize<T>(a: set<T>, b: set<T>)
    requires a <= b
    ensures |a| <= |b|
  {
    if a != {} {
      var x :| x in a;
      SubsetSize(a - {x}, b - {x});
    }
  }

  /** First occurrences, in order. */
  function FirstOccurrences<T(==)>(keys: seq<T>): seq<T>
  {
    if keys == [] then []
    else
      var kept := FirstOccurrences(keys[..|keys| - 1]);
      if keys[|keys| - 1] in kept then kept else kept + [keys[|keys| - 1]]
  }

  lemma {:induction false} FirstOccurrencesGrow<T>(keys: seq<T>, more: seq<T>)
    ensures FirstOccurrences(keys) <= FirstOccurrences(keys + more)
  {
    if more == [] {
      assert keys + more == keys;
    } else {
      var init, last := more[..|more| - 1], more[|more| - 1];
      FirstOccurrencesGrow(keys, init);
      assert keys + more == keys + init + [last];
    }
  }

  lemma FirstOccurrencesPrefix<T>(keys: seq<T>, whole: seq<T>)
    requires keys <= whole
    ensures FirstOccurrences(keys) <= FirstOccurrences(whole)
  {
    FirstOccurrencesGrow(keys, whole[|keys|..]);
    assert whole == keys + whole[|keys|..];
  }

  lemma {:induction false} FirstOccurrencesElements<T>(keys: seq<T>)
    ensures Distinct(FirstOccurrences(keys))
    ensures forall k :: k in FirstOccurrences(keys) <==> k in keys
  {
    if keys != [] {
      FirstOccurrencesElements(keys[..|keys| - 1]);
      assert keys == keys[..|keys| - 1] + [keys[|keys| - 1]];
    }
  }

  /** The elements that satisfy `p`, in order. */
  function Filter<T>(p: T -> bool, s: seq<T>): seq<T>
  {
    if s == [] then [] else Filter(p, s[..|s| - 1]) + if p(s[|s| - 1]) then [s[|s| - 1]] else []
  }

  lemma FilterSnoc<T>(p: T -> bool, s: seq<T>, x: T)
    ensures Filter(p, s + [x]) == Filter(p, s) + if p(x) then [x] else []
  {
    assert (s + [x])[..|s|] == s;
  }

  lemma {:induction false} FilterElements<T>(p: T -> bool, s: seq<T>)
    ensures forall x :: x in Filter(p, s) <==> x in s && p(x)
  {
    if s != [] {
      FilterElements(p, s[..|s| - 1]);
      assert s == s[..|s| - 1] + [s[|s| - 1]];
    }
  }

  /** The positions of a list that satisfy `p`. */
  ghost function Positions<T>(p: T -> bool, s: seq<T>): set<nat>
  {
    set i: nat | i < |s| && p(s[i])
  }

  lemma {:induction false} FilterCounts<T>(p: T -> bool, s: seq<T>)
    ensures |Filter(p, s)| == |Positions(p, s)|
  {
    if s == [] {
      assert Positions(p, s) == {};
    } else {
      var n: nat := |s| - 1;
      FilterCounts(p, s[..n]);
      assert Positions(p, s) == Positions(p, s[..n]) + if p(s[n]) then {n} else {};
    }
  }

  /** `part` stands somewhere in `text`. */
  ghost predicate Contains(text: string, part: string)
  {
    exists before, after :: text == before + part + after
  }

  // ---------------------------------------------------------------- text

  function TrimStart(s: string, space: char -> bool): string
  {
    if s != [] && space(s[0]) then TrimStart(s[1..], space) else s
  }

  function TrimEnd(s: string, space: char -> bool): string
  {
    if s != [] && space(s[|s| - 1]) then TrimEnd(s[..|s| - 1], space) else s
  }

  function Trim(s: string, space: char -> bool): string
  {
    TrimEnd(TrimStart(s, space), space)
  }

  lemma {:induction false} TrimEndKeepsStart(s: string, space: char -> bool)
    ensures TrimEnd(s, space) <= s
    ensures s != [] && !space(s[0]) ==> TrimEnd(s, space) != [] && TrimEnd(s, space)[0] == s[0]
    ensures var t := TrimEnd(s, space); t != [] ==> !space(t[|t| - 1])
  {
    if s != [] && space(s[|s| - 1]) {
      TrimEndKeepsStart(s[..|s| - 1], space);
    }
  }

  lemma {:induction false} TrimStartStops(s: string, space: char -> bool)
    ensures var t := TrimStart(s, space); |t| <= |s| && (t != [] ==> !space(t[0]))
    ensures forall c :: c in TrimStart(s, space) ==> c in s
  {
    if s != [] && space(s[0]) {
      TrimStartStops(s[1..], space);
    }
  }

  /** Trimming leaves a text alone exactly when it neither starts nor ends with a space. */
  lemma TrimIdentity(s: string, space: char -> bool)
    ensures Trim(s, space) == s <==> s == [] || (!space(s[0]) && !space(s[|s| - 1]))
  {
    TrimStartStops(s, space);
    TrimEndKeepsStart(TrimStart(s, space), space);
    if s != [] && space(s[0]) {
      TrimStartStops(s[1..], space);
    }
  }

  lemma TrimIdempotent(s: string, space: char -> bool)
    ensures Trim(Trim(s, space), space) == Trim(s, space)
    ensures forall c :: c in Trim(s, space) ==> c in s
  {
    TrimStartStops(s, space);
    TrimEndKeepsStart(TrimStart(s, space), space);
    TrimIdentity(Trim(s, space), space);
  }

  /** Unicode White_Space, the set Rust's `trim` removes. */
  predicate IsWhiteSpace(c: char)
  {
    || '\U{0009}' <= c <= '\U{000D}'
    || c in " \U{0085}\U{00A0}\U{1680}\U{2028}\U{2029}\U{202F}\U{205F}\U{3000}"
    || '\U{2000}' <= c <= '\U{200A}'
  }

  /** How many bytes a text takes in UTF-8. */
  function Utf8Length(s: string): nat
  {
    if s == [] then 0 else Utf8Length(s[..|s| - 1]) + Utf8Size(s[|s| - 1])
  }

  function Utf8Size(c: char): nat
  {
    if c < '\U{0080}' then 1 else if c < '\U{0800}' then 2 else if c < '\U{10000}' then 3 else 4
  }

  function RustTrim(s: string): string { Trim(s, IsWhiteSpace) }

  function LowerChar(c: char): char
  {
    if 'A' <= c <= 'Z' then (c as int + 32) as char else c
  }

  /** ASCII lower-casing. */
  function Lower(s: string): (t: string)
    ensures |t| == |s| && forall i :: 0 <= i < |s| ==> t[i] == LowerChar(s[i])
  {
    seq(|s|, i requires 0 <= i < |s| => LowerChar(s[i]))
  }

  /** The same letter up to ASCII case. */
  predicate SameLetter(c: char, d: char)
  {
    || c == d
    || ('A' <= c <= 'Z' && d as int == c as int + 32)
    || ('A' <= d <= 'Z' && c as int == d as int + 32)
  }

  lemma LowerIsCaseBlind(a: string, b: string)
    ensures Lower(a) == Lower(b) <==> |a| == |b| && forall i :: 0 <= i < |a| ==> SameLetter(a[i], b[i])
  {
    if Lower(a) == Lower(b) {
      assert |a| == |b|;
      forall i | 0 <= i < |a| ensures SameLetter(a[i], b[i]) {
        assert Lower(a)[i] == Lower(b)[i];
      }
    }
  }

  lemma LowerTwice(s: string)
    ensures Lower(Lower(s)) == Lower(s)
  {
  }

  /** A set of spaces without letters. */
  ghost predicate CaseBlind(space: char -> bool)
  {
    forall c :: space(LowerChar(c)) == space(c)
  }

  lemma {:induction false} LowerTrims(s: string, space: char -> bool)
    requires CaseBlind(space)
    ensures Trim(Lower(s), space) == Lower(Trim(s, space))
  {
    LowerTrimsStart(s, space);
    LowerTrimsEnd(TrimStart(s, space), space);
  }

  lemma {:induction false} LowerTrimsStart(s: string, space: char -> bool)
    requires CaseBlind(space)
    ensures TrimStart(Lower(s), space) == Lower(TrimStart(s, space))
  {
    if s != [] {
      assert Lower(s)[1..] == Lower(s[1..]);
      LowerTrimsStart(s[1..], space);
    }
  }

  lemma {:induction false} LowerTrimsEnd(s: string, space: char -> bool)
    requires CaseBlind(space)
    ensures TrimEnd(Lower(s), space) == Lower(TrimEnd(s, space))
  {
    if s != [] {
      assert Lower(s)[..|s| - 1] == Lower(s[..|s| - 1]);
      LowerTrimsEnd(s[..|s| - 1], space);
    }
  }

  function DigitChar(d: nat): char
    requires d < 10
  {
    (d + 48) as char
  }

  function Decimal(v: nat): string
  {
    if v < 10 then [DigitChar(v)] else Decimal(v / 10) + [DigitChar(v % 10)]
  }
}
