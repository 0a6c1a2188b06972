/** The loader's natural sort of file names (`Extended.natural_sort`):
    a name is cut into alternating runs of non-digits and digits, the
    non-digit runs compare lower-cased and the digit runs compare as
    integers, and the names are sorted stably by that key. Only ASCII
    letters and digits are modelled. */
module NaturalSort {
  import opened Common

  /** One piece of `re.split('([0-9]+)', name)` after conversion. */
  datatype Token = Text(text: string) | Num(value: nat)

  type Key = seq<Token>

  predicate IsDigit(c: char)
  {
    '0' <= c <= '9'
  }

  function LowerChar(c: char): char
  {
    if 'A' <= c <= 'Z' then (c as int - 'A' as int + 'a' as int) as char else c
  }

  function Lower(s: string): (r: string)
    ensures |r| == |s|
    ensures forall i :: 0 <= i < |s| ==> r[i] == LowerChar(s[i])
  {
    seq(|s|, i requires 0 <= i < |s| => LowerChar(s[i]))
  }

  /** Length of the longest prefix of `s` without a digit. */
  function TextRun(s: string): (n: nat)
    ensures n <= |s|
    ensures forall i :: 0 <= i < n ==> !IsDigit(s[i])
    ensures n < |s| ==> IsDigit(s[n])
  {
    if s == [] || IsDigit(s[0]) then 0 else 1 + TextRun(s[1..])
  }

  /** Length of the longest prefix of `s` made of digits. */
  function DigitRun(s: string): (n: nat)
    ensures n <= |s|
    ensures forall i :: 0 <= i < n ==> IsDigit(s[i])
    ensures n < |s| ==> !IsDigit(s[n])
  {
    if s == [] || !IsDigit(s[0]) then 0 else 1 + DigitRun(s[1..])
  }

  /** `int(d)` for a run of decimal digits. */
  function DecimalValue(d: string): nat
    requires forall i :: 0 <= i < |d| ==> IsDigit(d[i])
  {
    if d == [] then 0
    else
      assert IsDigit(d[|d| - 1]);
      DecimalValue(d[..|d| - 1]) * 10 + (d[|d| - 1] as int - '0' as int)
  }

  /** `alphanum_key`: the pieces of `re.split('([0-9]+)', s)`, text
      pieces lower-cased and digit pieces converted to integers. */
  function NaturalKey(s: string): (k: Key)
    ensures |k| % 2 == 1 && k[0].Text? && k[|k| - 1].Text?
    decreases |s|
  {
    var t := TextRun(s);
    if t == |s| then [Text(Lower(s))]
    else
      var d := DigitRun(s[t..]);
      assert d > 0;
      [Text(Lower(s[..t])), Num(DecimalValue(s[t..t + d]))] + NaturalKey(s[t + d..])
  }

  /** Text and numbers alternate, text at the even positions, and the
      key starts and ends with text. */
  ghost predicate Alternates(k: Key)
  {
    |k| % 2 == 1 && forall i :: 0 <= i < |k| ==> (k[i].Text? <==> i % 2 == 0)
  }

  lemma AlternatesCons(a: Token, b: Token, rest: Key)
    requires a.Text? && b.Num? && Alternates(rest)
    ensures Alternates([a, b] + rest)
  {
    var k := [a, b] + rest;
    assert forall i :: 2 <= i < |k| ==> k[i] == rest[i - 2];
  }

  /** `re.split` with a capturing group always starts and ends with a
      (possibly empty) text piece, so two keys are never compared text
      against number at the same position. */
  lemma {:induction false} NaturalKeyAlternates(s: string)
    ensures Alternates(NaturalKey(s))
    decreases |s|
  {
    var t := TextRun(s);
    if t < |s| {
      var d := DigitRun(s[t..]);
      NaturalKeyAlternates(s[t + d..]);
      AlternatesCons(Text(Lower(s[..t])), Num(DecimalValue(s[t..t + d])), NaturalKey(s[t + d..]));
    }
  }

  /** Python's `<` on strings: code point by code point. */
  predicate StrLess(a: string, b: string)
    decreases |a|
  {
    if a == [] then b != []
    else b != [] && (a[0] < b[0] || (a[0] == b[0] && StrLess(a[1..], b[1..])))
  }

  /** `<` on two key pieces. Keys alternate text and numbers in the same
      way, so Python never compares a text piece with a number (which
      would raise); ordering text first only makes the relation total. */
  predicate TokenLess(a: Token, b: Token)
  {
    match a
    case Text(x) => b.Num? || StrLess(x, b.text)
    case Num(m) => b.Num? && m < b.value
  }

  /** Python's `<` on lists: decided at the first differing piece, a
      proper prefix coming first. */
  predicate KeyLess(a: Key, b: Key)
    decreases |a|
  {
    if a == [] then b != []
    else b != [] && (TokenLess(a[0], b[0]) || (a[0] == b[0] && KeyLess(a[1..], b[1..])))
  }

  lemma {:induction false} StrLessIrreflexive(a: string)
    ensures !StrLess(a, a)
  {
    if a != [] { StrLessIrreflexive(a[1..]); }
  }

  lemma {:induction false} StrLessTransitive(a: string, b: string, c: string)
    requires StrLess(a, b) && StrLess(b, c)
    ensures StrLess(a, c)
    decreases |a|
  {
    if a != [] && a[0] == b[0] && b[0] == c[0] {
      StrLessTransitive(a[1..], b[1..], c[1..]);
    }
  }

  lemma {:induction false} StrLessTotal(a: string, b: string)
    requires a != b
    ensures StrLess(a, b) || StrLess(b, a)
    decreases |a|
  {
    if a != [] && b != [] && a[0] == b[0] {
      assert a == [a[0]] + a[1..] && b == [b[0]] + b[1..];
      StrLessTotal(a[1..], b[1..]);
    }
  }

  lemma TokenLessIrreflexive(a: Token)
    ensures !TokenLess(a, a)
  {
    if a.Text? { StrLessIrreflexive(a.text); }
  }

  lemma TokenLessTransitive(a: Token, b: Token, c: Token)
    requires TokenLess(a, b) && TokenLess(b, c)
    ensures TokenLess(a, c)
  {
    if a.Text? && b.Text? && c.Text? { StrLessTransitive(a.text, b.text, c.text); }
  }

  lemma TokenLessTotal(a: Token, b: Token)
    requires a != b
    ensures TokenLess(a, b) || TokenLess(b, a)
  {
    if a.Text? && b.Text? { StrLessTotal(a.text, b.text); }
  }

  lemma {:induction false} KeyLessIrreflexive(a: Key)
    ensures !KeyLess(a, a)
  {
    if a != [] {
      TokenLessIrreflexive(a[0]);
      KeyLessIrreflexive(a[1..]);
    }
  }

  lemma {:induction false} KeyLessTransitive(a: Key, b: Key, c: Key)
    requires KeyLess(a, b) && KeyLess(b, c)
    ensures KeyLess(a, c)
    decreases |a|
  {
    if a != [] {
      TokenLessIrreflexive(a[0]);
      TokenLessIrreflexive(b[0]);
      if a[0] == b[0] && b[0] == c[0] {
        KeyLessTransitive(a[1..], b[1..], c[1..]);
      } else if TokenLess(a[0], b[0]) && TokenLess(b[0], c[0]) {
        TokenLessTransitive(a[0], b[0], c[0]);
      }
    }
  }

  lemma {:induction false} KeyLessTotal(a: Key, b: Key)
    requires a != b
    ensures KeyLess(a, b) || KeyLess(b, a)
    decreases |a|
  {
    if a != [] && b != [] {
      if a[0] == b[0] {
        assert a == [a[0]] + a[1..] && b == [b[0]] + b[1..];
        KeyLessTotal(a[1..], b[1..]);
      } else {
        TokenLessTotal(a[0], b[0]);
      }
    }
  }

  /** Places `x` before the first element whose key is not smaller, so
      that `x` stays ahead of the elements whose key equals its own. */
  function Insert(x: string, s: seq<string>): seq<string>
  {
    if s == [] then [x]
    else if KeyLess(NaturalKey(s[0]), NaturalKey(x)) then [s[0]] + Insert(x, s[1..])
    else [x] + s
  }

  /** `sorted(file_list, key=alphanum_key)`: a stable sort by natural
      key. The result holds exactly the input names. */
  function NaturalSortOf(fileList: seq<string>): (r: seq<string>)
    ensures multiset(r) == multiset(fileList)
  {
    if fileList == [] then []
    else
      InsertPermutation(fileList[0], NaturalSortOf(fileList[1..]));
      assert fileList == [fileList[0]] + fileList[1..];
      Insert(fileList[0], NaturalSortOf(fileList[1..]))
  }

  ghost predicate SortedByKey(s: seq<string>)
  {
    forall i, j :: 0 <= i < j < |s| ==> !KeyLess(NaturalKey(s[j]), NaturalKey(s[i]))
  }

  /** The names of `s` whose key is `k`, in their order in `s`. */
  function WithKey(s: seq<string>, k: Key): seq<string>
  {
    if s == [] then [] else Keep(s[0], k) + WithKey(s[1..], k)
  }

  lemma {:induction false} InsertPermutation(x: string, s: seq<string>)
    ensures multiset(Insert(x, s)) == multiset(s) + multiset{x}
  {
    if s != [] && KeyLess(NaturalKey(s[0]), NaturalKey(x)) {
      InsertPermutation(x, s[1..]);
      assert s == [s[0]] + s[1..];
    }
  }

  /** Every element of `t` has a key at least that of `y`. */
  ghost predicate AllAtLeast(t: seq<string>, y: string)
  {
    forall j :: 0 <= j < |t| ==> !KeyLess(NaturalKey(t[j]), NaturalKey(y))
  }

  lemma SortedCons(y: string, t: seq<string>)
    requires SortedByKey(t) && AllAtLeast(t, y)
    ensures SortedByKey([y] + t)
  {
    var r := [y] + t;
    forall i, j | 0 <= i < j < |r|
      ensures !KeyLess(NaturalKey(r[j]), NaturalKey(r[i]))
    {
      assert r[j] == t[j - 1];
      if i > 0 { assert r[i] == t[i - 1]; }
    }
  }

  lemma AtLeastHead(x: string, s: seq<string>)
    requires s != [] && SortedByKey(s)
    requires !KeyLess(NaturalKey(s[0]), NaturalKey(x))
    ensures AllAtLeast(s, x)
  {
    forall j | 0 <= j < |s|
      ensures !KeyLess(NaturalKey(s[j]), NaturalKey(x))
    {
      if j > 0 && KeyLess(NaturalKey(s[j]), NaturalKey(x)) {
        if NaturalKey(x) != NaturalKey(s[0]) {
          KeyLessTotal(NaturalKey(x), NaturalKey(s[0]));
          KeyLessTransitive(NaturalKey(s[j]), NaturalKey(x), NaturalKey(s[0]));
        }
      }
    }
  }

  lemma AtLeastInsert(y: string, x: string, s: seq<string>)
    requires AllAtLeast(s, y)
    requires KeyLess(NaturalKey(y), NaturalKey(x))
    ensures AllAtLeast(Insert(x, s), y)
  {
    var r := Insert(x, s);
    InsertPermutation(x, s);
    forall j | 0 <= j < |r|
      ensures !KeyLess(NaturalKey(r[j]), NaturalKey(y))
    {
      assert r[j] in multiset(r);
      if r[j] == x {
        if KeyLess(NaturalKey(x), NaturalKey(y)) {
          KeyLessTransitive(NaturalKey(x), NaturalKey(y), NaturalKey(x));
          KeyLessIrreflexive(NaturalKey(x));
        }
      } else {
        assert r[j] in s;
      }
    }
  }

  lemma {:induction false} InsertSorted(x: string, s: seq<string>)
    requires SortedByKey(s)
    ensures SortedByKey(Insert(x, s))
  {
    if s == [] {
    } else if KeyLess(NaturalKey(s[0]), NaturalKey(x)) {
      assert SortedByKey(s[1..]);
      assert AllAtLeast(s[1..], s[0]);
      InsertSorted(x, s[1..]);
      AtLeastInsert(s[0], x, s[1..]);
      SortedCons(s[0], Insert(x, s[1..]));
    } else {
      AtLeastHead(x, s);
      SortedCons(x, s);
    }
  }

  lemma WithKeyCons(y: string, t: seq<string>, k: Key)
    ensures WithKey([y] + t, k) == Keep(y, k) + WithKey(t, k)
  {
    var r := [y] + t;
    assert r[0] == y && r[1..] == t;
  }

  /** The names of `[y]` whose key is `k`. */
  function Keep(y: string, k: Key): seq<string>
  {
    if NaturalKey(y) == k then [y] else []
  }

  lemma KeepDisjoint(a: string, b: string, k: Key)
    requires KeyLess(NaturalKey(a), NaturalKey(b))
    ensures Keep(a, k) == [] || Keep(b, k) == []
  {
    KeyLessIrreflexive(NaturalKey(a));
  }

  /** Moving `x` past an element with a smaller key keeps the names of
      every key in order. */
  lemma InsertStableStep(x: string, s: seq<string>, k: Key)
    requires s != [] && KeyLess(NaturalKey(s[0]), NaturalKey(x))
    requires WithKey(Insert(x, s[1..]), k) == Keep(x, k) + WithKey(s[1..], k)
    ensures WithKey(Insert(x, s), k) == Keep(x, k) + WithKey(s, k)
  {
    var px, p0, rest := Keep(x, k), Keep(s[0], k), WithKey(s[1..], k);
    WithKeyCons(s[0], Insert(x, s[1..]), k);
    WithKeyCons(s[0], s[1..], k);
    assert s == [s[0]] + s[1..];
    KeepDisjoint(s[0], x, k);
    assert p0 + (px + rest) == px + (p0 + rest);
  }

  lemma {:induction false} InsertStable(x: string, s: seq<string>, k: Key)
    ensures WithKey(Insert(x, s), k) == Keep(x, k) + WithKey(s, k)
  {
    if s == [] {
      WithKeyCons(x, [], k);
    } else if KeyLess(NaturalKey(s[0]), NaturalKey(x)) {
      InsertStable(x, s[1..], k);
      InsertStableStep(x, s, k);
    } else {
      WithKeyCons(x, s, k);
    }
  }

  /** The result is ordered by the natural key. */
  lemma {:induction false} NaturalSortSorted(fileList: seq<string>)
    ensures SortedByKey(NaturalSortOf(fileList))
  {
    if fileList != [] {
      NaturalSortSorted(fileList[1..]);
      InsertSorted(fileList[0], NaturalSortOf(fileList[1..]));
    }
  }

  /** Names with equal keys keep their input order. */
  lemma {:induction false} NaturalSortStable(fileList: seq<string>, k: Key)
    ensures WithKey(NaturalSortOf(fileList), k) == WithKey(fileList, k)
  {
    if fileList != [] {
      NaturalSortStable(fileList[1..], k);
      InsertStable(fileList[0], NaturalSortOf(fileList[1..]), k);
    }
  }

  lemma KeyOfImg2()
    ensures NaturalKey("img2") == [Text("img"), Num(2), Text("")]
  {
    assert Lower("img") == "img";
    assert NaturalKey("") == [Text("")];
    assert TextRun("img2") == 3 && DigitRun("2") == 1 && DecimalValue("2") == 2;
    assert "img2"[3..] == "2" && "img2"[..3] == "img" && "img2"[3..4] == "2" && "img2"[4..] == "";
  }

  lemma KeyOfImg1()
    ensures NaturalKey("img1") == [Text("img"), Num(1), Text("")]
  {
    assert Lower("img") == "img";
    assert NaturalKey("") == [Text("")];
    assert TextRun("img1") == 3 && DigitRun("1") == 1 && DecimalValue("1") == 1;
    assert "img1"[3..] == "1" && "img1"[..3] == "img" && "img1"[3..4] == "1" && "img1"[4..] == "";
  }

  lemma KeyOfImg10()
    ensures NaturalKey("img10") == [Text("img"), Num(10), Text("")]
  {
    assert Lower("img") == "img";
    assert NaturalKey("") == [Text("")];
    assert TextRun("img10") == 3 && DigitRun("10") == 2;
    assert DecimalValue("1") == 1 && "10"[..1] == "1";
    assert DecimalValue("10") == 10;
    assert "img10"[3..] == "10" && "img10"[..3] == "img" && "img10"[3..5] == "10" && "img10"[5..] == "";
  }

  /** Equal text then a larger number: "img10" does not come before
      "img2". */
  lemma Img10NotBeforeImg2()
    ensures !KeyLess(NaturalKey("img10"), NaturalKey("img2"))
  {
    KeyOfImg2();
    KeyOfImg10();
    var a, b := [Text("img"), Num(10), Text("")], [Text("img"), Num(2), Text("")];
    StrLessIrreflexive("img");
    assert a[1..] == [Num(10), Text("")] && b[1..] == [Num(2), Text("")];
    assert !KeyLess(a[1..], b[1..]);
  }

  /** A name whose key is larger than the first name's and not smaller
      than the second's goes between them. */
  lemma InsertBetween(x: string, a: string, b: string)
    requires KeyLess(NaturalKey(a), NaturalKey(x))
    requires !KeyLess(NaturalKey(b), NaturalKey(x))
    ensures Insert(x, [a, b]) == [a, x, b]
  {
    assert [a, b][1..] == [b];
  }

  /** Two names whose keys are out of order are swapped. */
  lemma SortPair(a: string, b: string)
    requires KeyLess(NaturalKey(b), NaturalKey(a))
    ensures NaturalSortOf([a, b]) == [b, a]
  {
    assert [a, b][1..] == [b] && [b][1..] == [];
    assert NaturalSortOf([b]) == [b];
    assert [b][0] == b;
  }

  /** Digit runs compare as numbers: "img1" sorts before "img10". */
  lemma SortImg10Img1()
    ensures NaturalSortOf(["img10", "img1"]) == ["img1", "img10"]
  {
    assert KeyLess(NaturalKey("img1"), NaturalKey("img10")) by {
      KeyOfImg1();
      KeyOfImg10();
    }
    SortPair("img10", "img1");
  }

  /** Digit runs compare as numbers, not as text. */
  lemma NaturalSortExample()
    ensures NaturalSortOf(["img2", "img10", "img1"]) == ["img1", "img2", "img10"]
  {
    SortImg10Img1();
    assert KeyLess(NaturalKey("img1"), NaturalKey("img2")) by {
      KeyOfImg1();
      KeyOfImg2();
    }
    Img10NotBeforeImg2();
    InsertBetween("img2", "img1", "img10");
    assert ["img2", "img10", "img1"][1..] == ["img10", "img1"];
  }
}
