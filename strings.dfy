/// Text helpers shared by the path, manifest and transcript code: decimal
/// formatting (`str(i)`, `%03d`), `str.split`, `str.join`, `list.index`, and
/// the code-point order Python uses to compare and sort strings.
module Strings {
  import opened Outcomes

  /// The elements of a sequence as a set.
  function Elems<T>(s: seq<T>): set<T> {
    set x | x in s
  }

  // ---------------------------------------------------------------------------
  // Decimal formatting

  predicate IsDigit(ch: char) {
    '0' <= ch <= '9'
  }

  function DigitChar(d: nat): (ch: char)
    requires d < 10
    ensures IsDigit(ch)
    ensures DigitValue(ch) == d
  {
    ('0' as int + d) as char
  }

  /// The number a digit character stands for.
  function DigitValue(ch: char): nat
    requires IsDigit(ch)
  {
    ch as int - '0' as int
  }

  /// The number a digit string spells, most significant digit first.
  function DigitsValue(s: string): nat
    requires forall i :: 0 <= i < |s| ==> IsDigit(s[i])
  {
    if |s| == 0 then 0 else 10 * DigitsValue(s[..|s| - 1]) + DigitValue(s[|s| - 1])
  }

  /// `str(n)` for a non-negative integer: its decimal digits, most significant
  /// first, without leading zeros.
  function Decimal(n: nat): (r: string)
    ensures 1 <= |r|
    ensures forall i :: 0 <= i < |r| ==> IsDigit(r[i])
    ensures DigitsValue(r) == n
    ensures |r| > 1 ==> r[0] != '0'
    ensures n < 10 <==> |r| == 1
  {
    if n < 10 then [DigitChar(n)]
    else
      var head := Decimal(n / 10);
      var r := head + [DigitChar(n % 10)];
      assert r[..|r| - 1] == head;
      assert r[0] == head[0];
      assert head[0] != '0' by {
        if |head| == 1 { assert DigitValue(head[0]) == n / 10; }
      }
      r
  }

  /// Different numbers have different decimal texts.
  lemma DecimalInjective(m: nat, n: nat)
    requires Decimal(m) == Decimal(n)
    ensures m == n
  {
    assert DigitsValue(Decimal(m)) == m;
  }

  /// `'%03d' % n`: the decimal digits of `n`, left-padded with zeros to width 3.
  function Pad3(n: nat): (r: string)
    ensures forall i :: 0 <= i < |r| ==> IsDigit(r[i])
    ensures DigitsValue(r) == n
    ensures |r| == if n < 1000 then 3 else |Decimal(n)|
  {
    if n < 10 then
      ZeroPrefix("0" + Decimal(n));
      ZeroPrefix(Decimal(n));
      assert "00" + Decimal(n) == "0" + ("0" + Decimal(n));
      "00" + Decimal(n)
    else if n < 100 then
      ZeroPrefix(Decimal(n));
      assert Decimal(n) == Decimal(n / 10) + [DigitChar(n % 10)];
      "0" + Decimal(n)
    else
      assert n >= 1000 || |Decimal(n)| == 3 by {
        if n < 1000 {
          assert Decimal(n) == Decimal(n / 10) + [DigitChar(n % 10)];
          assert Decimal(n / 10) == Decimal(n / 100) + [DigitChar(n / 10 % 10)];
          assert n / 10 / 10 == n / 100;
        }
      }
      Decimal(n)
  }

  /// A leading zero does not change the number a digit string spells.
  lemma {:induction false} ZeroPrefix(s: string)
    requires forall i :: 0 <= i < |s| ==> IsDigit(s[i])
    ensures DigitsValue("0" + s) == DigitsValue(s)
    decreases |s|
  {
    if |s| > 0 {
      var t := "0" + s;
      assert t[..|t| - 1] == "0" + s[..|s| - 1];
      ZeroPrefix(s[..|s| - 1]);
    } else {
      assert DigitValue('0') == 0;
      assert ("0" + s)[..0] == [];
    }
  }

  /// Below 1000, `%03d` is exactly three digits: hundreds, tens and units.
  lemma Pad3Digits(n: nat)
    requires n < 1000
    ensures Pad3(n) == [DigitChar(n / 100), DigitChar(n / 10 % 10), DigitChar(n % 10)]
  {
    if n < 10 {
      assert Pad3(n) == "00" + [DigitChar(n)];
      assert n / 100 == 0 && n / 10 % 10 == 0 && n % 10 == n;
      assert DigitChar(0) == '0';
    } else if n < 100 {
      assert Decimal(n) == Decimal(n / 10) + [DigitChar(n % 10)];
      assert Decimal(n / 10) == [DigitChar(n / 10)];
      assert n / 100 == 0 && n / 10 % 10 == n / 10;
      assert DigitChar(0) == '0';
    } else {
      assert n / 10 / 10 == n / 100;
      assert Decimal(n / 10) == Decimal(n / 100) + [DigitChar(n / 10 % 10)];
      assert Decimal(n / 100) == [DigitChar(n / 100)];
    }
  }

  /// From 1000 on, `%03d` no longer pads: the text has four or more digits.
  lemma Pad3Wide(n: nat)
    requires 1000 <= n
    ensures 4 <= |Pad3(n)|
  {
    assert Pad3(n) == Decimal(n / 10) + [DigitChar(n % 10)];
    assert 100 <= n / 10;
    assert |Decimal(n / 10)| >= 3 by {
      assert Decimal(n / 10) == Decimal(n / 10 / 10) + [DigitChar(n / 10 % 10)];
      assert 10 <= n / 10 / 10;
    }
  }

  // ---------------------------------------------------------------------------
  // Python's string order: code point by code point, a proper prefix first

  predicate Less(a: string, b: string)
    decreases |a|
  {
    |b| > 0 && (|a| == 0 || a[0] < b[0] || (a[0] == b[0] && Less(a[1..], b[1..])))
  }

  lemma {:induction false} LessIrreflexive(a: string)
    ensures !Less(a, a)
    decreases |a|
  {
    if |a| > 0 {
      LessIrreflexive(a[1..]);
    }
  }

  lemma {:induction false} LessTransitive(a: string, b: string, c: string)
    requires Less(a, b) && Less(b, c)
    ensures Less(a, c)
    decreases |a|
  {
    if |a| > 0 && a[0] == b[0] && b[0] == c[0] {
      LessTransitive(a[1..], b[1..], c[1..]);
    }
  }

  lemma {:induction false} LessTotal(a: string, b: string)
    requires a != b
    ensures Less(a, b) || Less(b, a)
    decreases |a|
  {
    if |a| > 0 && |b| > 0 && a[0] == b[0] {
      assert a == [a[0]] + a[1..] && b == [b[0]] + b[1..];
      LessTotal(a[1..], b[1..]);
    }
  }

  lemma LessAsymmetric(a: string, b: string)
    requires Less(a, b)
    ensures !Less(b, a)
  {
    if Less(b, a) {
      LessTransitive(a, b, a);
      LessIrreflexive(a);
    }
  }

  /// A common prefix does not change the order.
  lemma {:induction false} LessCommonPrefix(p: string, a: string, b: string)
    ensures Less(p + a, p + b) <==> Less(a, b)
    decreases |p|
  {
    if |p| == 0 {
      assert p + a == a && p + b == b;
    } else {
      assert (p + a)[0] == p[0] == (p + b)[0];
      assert (p + a)[1..] == p[1..] + a;
      assert (p + b)[1..] == p[1..] + b;
      LessCommonPrefix(p[1..], a, b);
    }
  }

  /// Between texts of equal length the order is settled inside them: what follows does not matter.
  lemma {:induction false} LessEqualLength(a: string, b: string, x: string, y: string)
    requires |a| == |b| && Less(a, b)
    ensures Less(a + x, b + y)
    decreases |a|
  {
    assert (a + x)[0] == a[0] && (b + y)[0] == b[0];
    if a[0] == b[0] {
      assert (a + x)[1..] == a[1..] + x && (b + y)[1..] == b[1..] + y;
      LessEqualLength(a[1..], b[1..], x, y);
    }
  }

  /// Below 1000, the order of the `%03d` texts is the order of the numbers.
  lemma Pad3Ordered(i: nat, j: nat)
    requires i < j < 1000
    ensures Less(Pad3(i), Pad3(j))
  {
    Pad3Digits(i);
    Pad3Digits(j);
    DigitSum(i);
    DigitSum(j);
    DigitsOrdered(i / 100, i / 10 % 10, i % 10, j / 100, j / 10 % 10, j % 10);
  }

  lemma DigitSum(n: nat)
    requires n < 1000
    ensures n == 100 * (n / 100) + 10 * (n / 10 % 10) + n % 10
  {
    var q := n / 10;
    assert n == 10 * q + n % 10;
    assert q == 10 * (q / 10) + q % 10;
    assert q / 10 == n / 100;
  }

  /// Three-digit texts compare like the numbers they spell.
  lemma DigitsOrdered(a0: nat, a1: nat, a2: nat, b0: nat, b1: nat, b2: nat)
    requires a0 < 10 && a1 < 10 && a2 < 10 && b0 < 10 && b1 < 10 && b2 < 10
    requires 100 * a0 + 10 * a1 + a2 < 100 * b0 + 10 * b1 + b2
    ensures Less([DigitChar(a0), DigitChar(a1), DigitChar(a2)], [DigitChar(b0), DigitChar(b1), DigitChar(b2)])
  {
    var a := [DigitChar(a0), DigitChar(a1), DigitChar(a2)];
    var b := [DigitChar(b0), DigitChar(b1), DigitChar(b2)];
    assert a[1..] == [a[1], a[2]] && b[1..] == [b[1], b[2]];
    assert a[1..][1..] == [a[2]] && b[1..][1..] == [b[2]];
    assert [a[2]][1..] == [] && [b[2]][1..] == [];
  }

  /// Every element before every later one: sorted, without duplicates.
  predicate StrictlySorted(s: seq<string>) {
    forall i, j :: 0 <= i < j < |s| ==> Less(s[i], s[j])
  }

  /// A set of strings has only one strictly sorted arrangement.
  lemma {:induction false} SortedUnique(a: seq<string>, b: seq<string>)
    requires StrictlySorted(a) && StrictlySorted(b)
    requires Elems(a) == Elems(b)
    ensures a == b
    decreases |a|
  {
    assert |b| > 0 ==> b[0] in Elems(b);
    if |a| > 0 {
      assert a[0] in Elems(b);
      assert |b| > 0;
      assert b[0] in Elems(a);
      if a[0] != b[0] {
        var k :| 0 <= k < |b| && b[k] == a[0];
        var m :| 0 <= m < |a| && a[m] == b[0];
        assert Less(b[0], a[0]);
        assert Less(a[0], b[0]);
        LessAsymmetric(a[0], b[0]);
      }
      forall x ensures x in Elems(a[1..]) <==> x in Elems(b[1..]) {
        if x in Elems(a[1..]) {
          var i :| 1 <= i < |a| && a[i] == x;
          if x == a[0] { LessIrreflexive(x); }
          assert x in Elems(b);
          var j :| 0 <= j < |b| && b[j] == x;
          assert j != 0;
        }
        if x in Elems(b[1..]) {
          var j :| 1 <= j < |b| && b[j] == x;
          if x == b[0] { LessIrreflexive(x); }
          assert x in Elems(a);
          var i :| 0 <= i < |a| && a[i] == x;
          assert i != 0;
        }
      }
      SortedUnique(a[1..], b[1..]);
      assert a == [a[0]] + a[1..] && b == [b[0]] + b[1..];
    }
  }

  /// Insert `x` into a strictly sorted sequence at its place.
  function Insert(x: string, s: seq<string>): (r: seq<string>)
    requires StrictlySorted(s) && x !in s
    ensures Elems(r) == Elems(s) + {x}
    ensures |r| == |s| + 1
    ensures StrictlySorted(r)
  {
    if s == [] then [x]
    else if Less(x, s[0]) then
      assert forall j :: 0 <= j < |s| ==> Less(x, s[j]) by {
        forall j | 0 < j < |s| ensures Less(x, s[j]) { LessTransitive(x, s[0], s[j]); }
      }
      [x] + s
    else
      LessTotal(x, s[0]);
      var rest := Insert(x, s[1..]);
      assert Elems(s) == {s[0]} + Elems(s[1..]) by { assert s == [s[0]] + s[1..]; }
      assert forall j :: 0 <= j < |rest| ==> Less(s[0], rest[j]) by {
        forall j | 0 <= j < |rest| ensures Less(s[0], rest[j]) {
          assert rest[j] in Elems(rest);
        }
      }
      [s[0]] + rest
  }

  /// `sorted(...)` of a finite set of strings.
  method SortSet(names: set<string>) returns (r: seq<string>)
    ensures StrictlySorted(r)
    ensures Elems(r) == names
  {
    r := [];
    var rest := names;
    while rest != {}
      invariant StrictlySorted(r)
      invariant Elems(r) !! rest
      invariant Elems(r) + rest == names
      decreases rest
    {
      var x :| x in rest;
      assert x !in Elems(r);
      r := Insert(x, r);
      rest := rest - {x};
    }
  }

  // ---------------------------------------------------------------------------
  // str.split(c), sep.join(pieces), list.index(x)

  /// The first position of `c` in `s`.
  function IndexOfChar(s: string, c: char): (k: nat)
    requires c in s
    ensures k < |s| && s[k] == c && c !in s[..k]
  {
    if s[0] == c then 0 else 1 + IndexOfChar(s[1..], c)
  }

  /// `s.split(c)` for a one-character separator: always at least one piece.
  function SplitOn(s: string, c: char): (r: seq<string>)
    ensures |r| >= 1
    ensures forall i :: 0 <= i < |r| ==> c !in r[i]
    ensures |r| == 1 <==> c !in s
    decreases |s|
  {
    if c !in s then [s]
    else
      var k := IndexOfChar(s, c);
      [s[..k]] + SplitOn(s[k + 1..], c)
  }

  /// Every piece of a split is made of characters of the text.
  lemma {:induction false} SplitOnChars(s: string, c: char, d: char)
    requires d !in s
    ensures forall i :: 0 <= i < |SplitOn(s, c)| ==> d !in SplitOn(s, c)[i]
    decreases |s|
  {
    if c in s {
      var k := IndexOfChar(s, c);
      assert forall j :: 0 <= j < k ==> s[..k][j] == s[j];
      assert d !in s[k + 1..] by {
        assert forall j :: k + 1 <= j < |s| ==> s[k + 1..][j - k - 1] == s[j];
      }
      SplitOnChars(s[k + 1..], c, d);
    }
  }

  /// `c.join(pieces)` for a one-character separator.
  function JoinOn(pieces: seq<string>, c: char): string {
    if |pieces| == 0 then ""
    else if |pieces| == 1 then pieces[0]
    else pieces[0] + [c] + JoinOn(pieces[1..], c)
  }

  /// Joining one more piece adds the separator and the piece at the end.
  lemma {:induction false} JoinOnSnoc(pieces: seq<string>, y: string, c: char)
    requires |pieces| >= 1
    ensures JoinOn(pieces + [y], c) == JoinOn(pieces, c) + [c] + y
    decreases |pieces|
  {
    if |pieces| > 1 {
      assert (pieces + [y])[1..] == pieces[1..] + [y];
      JoinOnSnoc(pieces[1..], y, c);
    }
  }

  /// Joining a first piece in front of at least one more adds the separator.
  lemma JoinOnCons(p: string, rest: seq<string>, c: char)
    requires |rest| >= 1
    ensures JoinOn([p] + rest, c) == p + [c] + JoinOn(rest, c)
  {
    assert ([p] + rest)[1..] == rest;
  }

  /// The text splits at the first separator into a head piece and the rest.
  lemma SplitOnHead(s: string, c: char, k: nat)
    requires c in s && k == IndexOfChar(s, c)
    ensures SplitOn(s, c) == [s[..k]] + SplitOn(s[k + 1..], c)
    ensures s == s[..k] + [c] + s[k + 1..]
  {
    assert s[k] == c;
    assert s[..k] + [c] + s[k + 1..] == s[..k] + s[k..] by {
      assert s[k..] == [c] + s[k + 1..];
    }
    assert s[..k] + s[k..] == s;
  }

  /// A separator-free piece followed by the separator is the first piece of the split.
  lemma SplitOnCons(p: string, rest: string, c: char)
    requires c !in p
    ensures SplitOn(p + [c] + rest, c) == [p] + SplitOn(rest, c)
  {
    var s := p + [c] + rest;
    assert s[|p|] == c;
    assert s[..|p|] == p;
    IndexOfCharAt(s, c, |p|);
    assert s[|p| + 1..] == rest;
    SplitOnHead(s, c, |p|);
  }

  /// Joining the pieces of a split gives back the text.
  lemma {:induction false} JoinSplit(s: string, c: char)
    ensures JoinOn(SplitOn(s, c), c) == s
    decreases |s|
  {
    if c in s {
      var k := IndexOfChar(s, c);
      var tail := s[k + 1..];
      var rest := SplitOn(tail, c);
      SplitOnHead(s, c, k);
      JoinOnCons(s[..k], rest, c);
      JoinSplit(tail, c);
    }
  }

  /// Splitting a join gives back the pieces, when no piece holds the separator.
  lemma {:induction false} SplitJoin(pieces: seq<string>, c: char)
    requires |pieces| >= 1
    requires forall i :: 0 <= i < |pieces| ==> c !in pieces[i]
    ensures SplitOn(JoinOn(pieces, c), c) == pieces
    decreases |pieces|
  {
    if |pieces| > 1 {
      var p := pieces[0];
      var rest := pieces[1..];
      var tail := JoinOn(rest, c);
      var s := p + [c] + tail;
      assert pieces == [p] + rest;
      JoinOnCons(p, rest, c);
      assert s[|p|] == c;
      assert s[..|p|] == p;
      assert IndexOfChar(s, c) == |p| by { IndexOfCharAt(s, c, |p|); }
      assert s[|p| + 1..] == tail;
      SplitOnHead(s, c, |p|);
      SplitJoin(rest, c);
    }
  }

  /// A position holding `c` with no `c` before it is the first position of `c`.
  lemma {:induction false} IndexOfCharAt(s: string, c: char, k: nat)
    requires k < |s| && s[k] == c && c !in s[..k]
    ensures IndexOfChar(s, c) == k
    decreases k
  {
    if k > 0 {
      assert s[0] == s[..k][0];
      assert s[1..][k - 1] == c;
      assert s[1..][..k - 1] == s[..k][1..];
      IndexOfCharAt(s[1..], c, k - 1);
    }
  }

  /// `list.index(x)`: the first position of `x`, or ValueError when absent.
  function IndexOf<T(==)>(s: seq<T>, x: T): (r: Py<nat>)
    ensures r.Raised? <==> x !in s
    ensures r.Raised? ==> r.error == ValueError
    ensures r.Ok? ==> r.value < |s| && s[r.value] == x && x !in s[..r.value]
  {
    if |s| == 0 then Raised(ValueError)
    else if s[0] == x then Ok(0)
    else match IndexOf(s[1..], x)
      case Ok(k) => assert s[1..][..k] == s[1..k + 1]; Ok(k + 1)
      case Raised(e) => Raised(e)
  }

  /// No element listed twice.
  predicate NoDuplicates<T(==)>(s: seq<T>) {
    forall i, j :: 0 <= i < j < |s| ==> s[i] != s[j]
  }

  /// In a list without duplicates, a listed element occurs once.
  lemma {:induction false} OnceInDistinct<T>(s: seq<T>, i: nat)
    requires NoDuplicates(s) && i < |s|
    ensures multiset(s)[s[i]] == 1
    decreases |s|
  {
    assert s == [s[0]] + s[1..];
    if i == 0 {
      assert s[0] !in s[1..];
    } else {
      OnceInDistinct(s[1..], i - 1);
      assert s[0] != s[i];
    }
  }

  /// In a list without duplicates, `list.index` of an element finds its position.
  lemma FirstIndexDistinct<T>(s: seq<T>, i: nat)
    requires NoDuplicates(s) && i < |s|
    ensures IndexOf(s, s[i]) == Ok(i)
  {
    assert s[i] !in s[..i];
    IndexOfAt(s, s[i], i);
  }

  /// The first position of an element pins down `list.index`.
  lemma IndexOfAt<T>(s: seq<T>, x: T, k: nat)
    requires k < |s| && s[k] == x && x !in s[..k]
    ensures IndexOf(s, x) == Ok(k)
  {
    var r := IndexOf(s, x).value;
    assert forall j :: 0 <= j < k ==> s[..k][j] == s[j];
    assert forall j :: 0 <= j < r ==> s[..r][j] == s[j];
  }

  /// Dropping position i of a list without duplicates (what `list.remove`
  /// does) drops exactly that element and keeps the list free of duplicates.
  lemma RemoveAtDistinct<T>(s: seq<T>, i: nat)
    requires NoDuplicates(s) && i < |s|
    ensures NoDuplicates(s[..i] + s[i + 1..])
    ensures Elems(s[..i] + s[i + 1..]) == Elems(s) - {s[i]}
  {
    var o := s[..i] + s[i + 1..];
    assert forall k :: 0 <= k < |o| ==> o[k] == (if k < i then s[k] else s[k + 1]);
    forall x | x in Elems(s) && x != s[i] ensures x in Elems(o) {
      var j :| 0 <= j < |s| && s[j] == x;
      if j < i { assert o[j] == x; } else { assert o[j - 1] == x; }
    }
  }
}
