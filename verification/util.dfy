/** Sequence and string helpers shared by the whole model: JavaScript's
    `Array.prototype.filter`, `Set` de-duplication, `String.prototype.trim`,
    `split(/\s+/)`, `join`, ASCII `toLowerCase` and decimal number printing. */
module Util {

  datatype Option<+T> = None | Some(value: T)

  // ---------------------------------------------------------------- filter

  /** `s.filter(p)`: the elements of `s` satisfying `p`, in their original order. */
  function Filter<T>(s: seq<T>, p: T -> bool): (r: seq<T>)
    ensures |r| <= |s|
    ensures forall x :: x in r ==> x in s && p(x)
    ensures forall x :: x in s && p(x) ==> x in r
    decreases |s|
  {
    if s == [] then []
    else if p(s[0]) then [s[0]] + Filter(s[1..], p)
    else Filter(s[1..], p)
  }

  lemma {:induction false} FilterAppend<T>(a: seq<T>, b: seq<T>, p: T -> bool)
    ensures Filter(a + b, p) == Filter(a, p) + Filter(b, p)
    decreases |a|
  {
    if a == [] {
      assert a + b == b;
    } else {
      var t := a[1..] + b;
      assert (a + b)[0] == a[0] && (a + b)[1..] == t;
      FilterAppend(a[1..], b, p);
      if p(a[0]) {
        assert Filter(a + b, p) == [a[0]] + Filter(t, p);
        assert Filter(a, p) == [a[0]] + Filter(a[1..], p);
      }
    }
  }

  lemma {:induction false} FilterKeepsAll<T>(s: seq<T>, p: T -> bool)
    requires forall x :: x in s ==> p(x)
    ensures Filter(s, p) == s
    decreases |s|
  {
    if s != [] {
      FilterKeepsAll(s[1..], p);
    }
  }

  /** Every element `Filter` drops is one `p` rejects: the kept elements
      appear with the multiplicity they had in `s`. */
  lemma {:induction false} FilterCount<T>(s: seq<T>, p: T -> bool, x: T)
    requires p(x)
    ensures multiset(Filter(s, p))[x] == multiset(s)[x]
    decreases |s|
  {
    if s != [] {
      FilterCount(s[1..], p, x);
      assert s == [s[0]] + s[1..];
    }
  }

  // ------------------------------------------------------------ duplicates

  predicate NoDuplicates<T(==)>(s: seq<T>)
  {
    forall i, j :: 0 <= i < j < |s| ==> s[i] != s[j]
  }

  /** `Array.from(new Set(s))`: each element once, at its first occurrence. */
  function Dedup<T(==)>(s: seq<T>): (r: seq<T>)
    ensures forall x :: x in r ==> x in s
    ensures forall x :: x in s ==> x in r
    ensures NoDuplicates(r)
    decreases |s|
  {
    if s == [] then []
    else
      var d := Dedup(s[..|s| - 1]);
      assert s == s[..|s| - 1] + [s[|s| - 1]];
      if s[|s| - 1] in d then d else d + [s[|s| - 1]]
  }

  /** First-occurrence order: de-duplicating a longer list only appends. */
  lemma {:induction false} DedupExtends<T>(a: seq<T>, b: seq<T>)
    ensures |Dedup(a)| <= |Dedup(a + b)|
    ensures Dedup(a + b)[..|Dedup(a)|] == Dedup(a)
    decreases |b|
  {
    if b == [] {
      assert a + b == a;
    } else {
      var ab := a + b;
      var init := a + b[..|b| - 1];
      assert ab[..|ab| - 1] == init;
      DedupExtends(a, b[..|b| - 1]);
    }
  }

  /** A list without duplicates is its own de-duplication. */
  lemma {:induction false} DedupOfDistinct<T>(s: seq<T>)
    requires NoDuplicates(s)
    ensures Dedup(s) == s
    decreases |s|
  {
    if s != [] {
      var init := s[..|s| - 1];
      assert NoDuplicates(init);
      DedupOfDistinct(init);
      assert s[|s| - 1] !in init;
      assert s == init + [s[|s| - 1]];
    }
  }

  // --------------------------------------------------------------- strings

  predicate StartsWith(s: string, prefix: string)
  {
    |prefix| <= |s| && s[..|prefix|] == prefix
  }

  predicate EndsWith(s: string, suffix: string)
  {
    |suffix| <= |s| && s[|s| - |suffix|..] == suffix
  }

  /** `s.includes(sub)`. */
  predicate Contains(s: string, sub: string)
  {
    exists i :: 0 <= i <= |s| - |sub| && OccursAt(s, sub, i)
  }

  predicate OccursAt(s: string, sub: string, i: int)
  {
    0 <= i <= |s| - |sub| && s[i..i + |sub|] == sub
  }

  /** The characters JavaScript's `trim` removes and `\s` matches:
      WhiteSpace and LineTerminator of ECMA-262. */
  predicate IsSpace(c: char)
  {
    var n := c as int;
    n == 0x09 || n == 0x0A || n == 0x0B || n == 0x0C || n == 0x0D || n == 0x20 ||
    n == 0xA0 || n == 0x1680 || (0x2000 <= n <= 0x200A) || n == 0x2028 ||
    n == 0x2029 || n == 0x202F || n == 0x205F || n == 0x3000 || n == 0xFEFF
  }

  predicate AllSpace(s: string)
  {
    forall i :: 0 <= i < |s| ==> IsSpace(s[i])
  }

  function TrimStart(s: string): (r: string)
    ensures |r| <= |s| && r == s[|s| - |r|..]
    ensures s != [] && IsSpace(s[0]) ==> |r| < |s|
    ensures r == [] || !IsSpace(r[0])
    decreases |s|
  {
    if s != [] && IsSpace(s[0]) then TrimStart(s[1..]) else s
  }

  function TrimEnd(s: string): (r: string)
    ensures |r| <= |s| && r == s[..|r|]
    ensures r == [] || !IsSpace(r[|r| - 1])
    decreases |s|
  {
    if s != [] && IsSpace(s[|s| - 1]) then TrimEnd(s[..|s| - 1]) else s
  }

  lemma {:induction false} TrimEndDropsSpace(s: string)
    ensures AllSpace(s[|TrimEnd(s)|..])
    decreases |s|
  {
    if s != [] && IsSpace(s[|s| - 1]) {
      var init := s[..|s| - 1];
      TrimEndDropsSpace(init);
      var k := |TrimEnd(init)|;
      assert s[k..] == init[k..] + [s[|s| - 1]];
    }
  }

  /** `s.trim()`. */
  function Trim(s: string): string
  {
    TrimEnd(TrimStart(s))
  }

  /** The longest prefix of `s` without white space. */
  function TakeWord(s: string): (w: string)
    ensures |w| <= |s| && w == s[..|w|]
    ensures |w| < |s| ==> IsSpace(s[|w|])
    decreases |s|
  {
    if s == [] || IsSpace(s[0]) then [] else [s[0]] + TakeWord(s[1..])
  }

  /** `s.split(/\s+/)`: the pieces between maximal runs of white space; a
      leading or trailing run yields an empty first or last piece. */
  function SplitOnSpace(s: string): (r: seq<string>)
    ensures |r| >= 1
    decreases |s|
  {
    var w := TakeWord(s);
    var rest := s[|w|..];
    if rest == [] then [w] else [w] + SplitOnSpace(TrimStart(rest))
  }

  /** The maximal runs of non-space characters of `s`, left to right: the
      reference meaning of "the words of a text". */
  function Words(s: string): seq<string>
    decreases |s|
  {
    var t := TrimStart(s);
    if t == [] then []
    else
      var w := TakeWord(t);
      [w] + Words(t[|w|..])
  }

  function WordCount(s: string): nat
  {
    |Words(s)|
  }

  lemma {:induction false} TrimStartAllSpace(s: string)
    ensures TrimStart(s) == [] <==> AllSpace(s)
    decreases |s|
  {
    if s != [] && IsSpace(s[0]) {
      TrimStartAllSpace(s[1..]);
      assert AllSpace(s) <==> AllSpace(s[1..]) by {
        assert forall i :: 0 < i < |s| ==> s[i] == s[1..][i - 1];
      }
    }
  }

  lemma {:induction false} TrimStartAppend(a: string, b: string)
    requires TrimStart(a) != []
    ensures TrimStart(a + b) == TrimStart(a) + b
    decreases |a|
  {
    if IsSpace(a[0]) {
      assert (a + b)[1..] == a[1..] + b;
      TrimStartAppend(a[1..], b);
    }
  }

  lemma {:induction false} TrimStartPrefix(sp: string, s: string)
    requires AllSpace(sp)
    ensures TrimStart(sp + s) == TrimStart(s)
    decreases |sp|
  {
    if sp != [] {
      assert (sp + s)[1..] == sp[1..] + s;
      TrimStartPrefix(sp[1..], s);
    } else {
      assert sp + s == s;
    }
  }

  lemma {:induction false} TakeWordBeforeSpace(a: string, sp: string)
    requires AllSpace(sp)
    ensures TakeWord(a + sp) == TakeWord(a)
    decreases |a|
  {
    if a == [] {
      assert a + sp == sp;
    } else if !IsSpace(a[0]) {
      assert (a + sp)[1..] == a[1..] + sp;
      TakeWordBeforeSpace(a[1..], sp);
    }
  }

  lemma AllSpaceAppend(a: string, b: string)
    requires AllSpace(a) && AllSpace(b)
    ensures AllSpace(a + b)
  {
    assert forall i :: 0 <= i < |a| ==> (a + b)[i] == a[i];
    assert forall i :: |a| <= i < |a| + |b| ==> (a + b)[i] == b[i - |a|];
  }

  lemma BlankStaysBlank(s: string, sp: string)
    requires TrimStart(s) == [] && AllSpace(sp)
    ensures Words(s + sp) == Words(s) == []
  {
    TrimStartAllSpace(s);
    AllSpaceAppend(s, sp);
    TrimStartAllSpace(s + sp);
  }

  lemma WordsOfWordStart(t: string)
    requires t != [] && !IsSpace(t[0])
    ensures |TakeWord(t)| >= 1
    ensures Words(t) == [TakeWord(t)] + Words(t[|TakeWord(t)|..])
  {
    assert TrimStart(t) == t;
  }

  /** Trailing white space adds no word. */
  lemma {:induction false} WordsIgnoreTrailingSpace(s: string, sp: string)
    requires AllSpace(sp)
    ensures Words(s + sp) == Words(s)
    decreases |s|
  {
    if TrimStart(s) == [] {
      BlankStaysBlank(s, sp);
    } else {
      var t := TrimStart(s);
      var w := TakeWord(t);
      WordStartStep(s, sp);
      WordsIgnoreTrailingSpace(t[|w|..], sp);
    }
  }

  /** One step of the induction above: the first word is the same with or
      without the trailing space, and the remainders differ by it. */
  lemma WordStartStep(s: string, sp: string)
    requires AllSpace(sp) && TrimStart(s) != []
    ensures var t := TrimStart(s); var w := TakeWord(t);
      |w| >= 1 && |t[|w|..]| < |s| &&
      Words(s) == [w] + Words(t[|w|..]) &&
      Words(s + sp) == [w] + Words(t[|w|..] + sp)
  {
    var t := TrimStart(s);
    WordsOfWordStart(t);
    WordsSkipLeadingSpace(s);
    FirstWordBeforeSpace(s, sp);
  }

  lemma FirstWordBeforeSpace(s: string, sp: string)
    requires AllSpace(sp) && TrimStart(s) != []
    ensures var t := TrimStart(s); var w := TakeWord(t);
      Words(s + sp) == [w] + Words(t[|w|..] + sp)
  {
    var t := TrimStart(s);
    TrimStartAppend(s, sp);
    WordsSkipLeadingSpace(s + sp);
    WordThenSpace(t, sp);
  }

  /** A text that starts with a word keeps that first word when white
      space is appended. */
  lemma WordThenSpace(t: string, sp: string)
    requires AllSpace(sp) && t != [] && !IsSpace(t[0])
    ensures var w := TakeWord(t); Words(t + sp) == [w] + Words(t[|w|..] + sp)
  {
    var ts := t + sp;
    var w := TakeWord(t);
    assert ts[0] == t[0];
    TakeWordBeforeSpace(t, sp);
    assert ts[|w|..] == t[|w|..] + sp;
    WordsOfWordStart(ts);
  }

  lemma WordsSkipLeadingSpace(s: string)
    ensures Words(s) == Words(TrimStart(s))
  {
    TrimStartIdempotent(s);
  }

  /** Leading white space adds no word. */
  lemma WordsIgnoreLeadingSpace(sp: string, s: string)
    requires AllSpace(sp)
    ensures Words(sp + s) == Words(s)
  {
    TrimStartPrefix(sp, s);
  }

  lemma TrimStartIdempotent(s: string)
    ensures TrimStart(TrimStart(s)) == TrimStart(s)
  {
  }

  /** Splitting a text without outer white space yields exactly its words. */
  lemma {:induction false} SplitCountsWords(s: string)
    requires s != [] && !IsSpace(s[0]) && !IsSpace(s[|s| - 1])
    ensures |SplitOnSpace(s)| == WordCount(s)
    decreases |s|
  {
    var rest := s[|TakeWord(s)|..];
    if rest != [] {
      var t := TrimStart(rest);
      RestAfterWord(s);
      SplitCountsWords(t);
    }
    SplitCountsStep(s);
  }

  /** The step of the induction above: with the count right for what
      follows the first word, it is right for the whole text. */
  lemma SplitCountsStep(s: string)
    requires s != [] && !IsSpace(s[0])
    requires var rest := s[|TakeWord(s)|..];
      rest != [] ==> |SplitOnSpace(TrimStart(rest))| == WordCount(TrimStart(rest))
    ensures |SplitOnSpace(s)| == WordCount(s)
  {
    SplitStep(s);
  }

  /** What follows the first word of a text without outer white space is,
      once trimmed, a shorter such text (when anything follows at all). */
  lemma RestAfterWord(s: string)
    requires s != [] && !IsSpace(s[0]) && !IsSpace(s[|s| - 1])
    requires s[|TakeWord(s)|..] != []
    ensures var t := TrimStart(s[|TakeWord(s)|..]);
      t != [] && !IsSpace(t[0]) && !IsSpace(t[|t| - 1]) && |t| < |s|
  {
    var w := TakeWord(s);
    var rest := s[|w|..];
    TrimStartKeepsLast(rest);
    assert rest[|rest| - 1] == s[|s| - 1];
  }

  /** Splitting and counting words both take the first word off a text that
      starts with one. */
  lemma SplitStep(s: string)
    requires s != [] && !IsSpace(s[0])
    ensures var rest := s[|TakeWord(s)|..];
      |TakeWord(s)| >= 1 &&
      (rest == [] ==> |SplitOnSpace(s)| == 1 == WordCount(s)) &&
      (rest != [] ==> |SplitOnSpace(s)| == 1 + |SplitOnSpace(TrimStart(rest))| &&
                      WordCount(s) == 1 + WordCount(TrimStart(rest)))
  {
    var rest := s[|TakeWord(s)|..];
    WordsOfWordStart(s);
    WordsSkipLeadingSpace(rest);
  }

  lemma TrimStartKeepsLast(s: string)
    requires s != [] && !IsSpace(s[|s| - 1])
    ensures TrimStart(s) != [] && TrimStart(s)[|TrimStart(s)| - 1] == s[|s| - 1]
  {
    var t := TrimStart(s);
    NotAllSpace(s, |s| - 1);
    TrimStartAllSpace(s);
    assert t == s[|s| - |t|..];
  }

  lemma NotAllSpace(s: string, i: int)
    requires 0 <= i < |s| && !IsSpace(s[i])
    ensures !AllSpace(s)
  {
  }

  /** `trim` keeps the words of a text. */
  lemma TrimKeepsWords(s: string)
    ensures Words(Trim(s)) == Words(s)
  {
    WordsSkipLeadingSpace(s);
    TrimEndKeepsWords(TrimStart(s));
  }

  /** Trimming the end keeps the words of a text. */
  lemma TrimEndKeepsWords(t: string)
    ensures Words(TrimEnd(t)) == Words(t)
  {
    var e := TrimEnd(t);
    TrimEndDropsSpace(t);
    var sp := t[|e|..];
    assert t == e + sp;
    WordsIgnoreTrailingSpace(e, sp);
  }

  /** The count `text.trim().split(/\s+/).length` equals the number of words
      of `text`, except that a blank text still splits into one empty piece. */
  lemma SplitTrimCount(s: string)
    ensures |SplitOnSpace(Trim(s))| == if WordCount(s) == 0 then 1 else WordCount(s)
  {
    var t := TrimStart(s);
    var r := Trim(s);
    TrimKeepsWords(s);
    if r == [] {
      assert Words(r) == [];
    } else {
      assert r[0] == t[0];
      SplitCountsWords(r);
    }
  }

  lemma BlankHasNoWords(s: string)
    ensures Trim(s) == [] <==> WordCount(s) == 0
  {
    TrimKeepsWords(s);
    var r := Trim(s);
    if r != [] {
      assert TrimStart(r) == r;
    }
  }

  /** `"abc".toLowerCase()` restricted to ASCII letters. */
  function ToLowerAscii(s: string): (r: string)
    ensures |r| == |s|
    ensures forall i :: 0 <= i < |s| ==>
      r[i] == if 'A' <= s[i] <= 'Z' then (s[i] as int + 32) as char else s[i]
  {
    seq(|s|, i requires 0 <= i < |s| =>
      if 'A' <= s[i] <= 'Z' then (s[i] as int + 32) as char else s[i])
  }

  // ------------------------------------------------------------ join, split

  /** `parts.join(sep)` for a one-character separator. */
  function Join(parts: seq<string>, sep: char): string
    decreases |parts|
  {
    if parts == [] then ""
    else if |parts| == 1 then parts[0]
    else parts[0] + [sep] + Join(parts[1..], sep)
  }

  /** `s.split(sep)` for a one-character separator. */
  function Split(s: string, sep: char): (r: seq<string>)
    ensures |r| >= 1
    decreases |s|
  {
    if sep in s then
      var i := IndexOfChar(s, sep);
      [s[..i]] + Split(s[i + 1..], sep)
    else [s]
  }

  function IndexOfChar(s: string, c: char): (i: nat)
    requires c in s
    ensures i < |s| && s[i] == c && c !in s[..i]
  {
    if s[0] == c then 0 else 1 + IndexOfChar(s[1..], c)
  }

  /** Splitting a join on its separator gives the pieces back. */
  lemma {:induction false} SplitJoin(parts: seq<string>, sep: char)
    requires parts != []
    requires forall p :: p in parts ==> sep !in p
    ensures Split(Join(parts, sep), sep) == parts
    decreases |parts|
  {
    if |parts| > 1 {
      var s := Join(parts, sep);
      var rest := Join(parts[1..], sep);
      assert s == parts[0] + [sep] + rest;
      assert sep in s by { assert s[|parts[0]|] == sep; }
      var i := IndexOfChar(s, sep);
      assert sep !in parts[0];
      assert forall k :: 0 <= k < |parts[0]| ==> s[k] == parts[0][k];
      assert forall k :: 0 <= k < i ==> s[..i][k] == s[k];
      assert s[|parts[0]|] == sep;
      assert i == |parts[0]|;
      assert s[..i] == parts[0];
      assert s[i + 1..] == rest;
      SplitJoin(parts[1..], sep);
    }
  }

  // --------------------------------------------------------------- numbers

  predicate IsDigit(c: char)
  {
    '0' as int <= c as int <= '9' as int
  }

  /** `String(n)` for a non-negative integer: its decimal digits. */
  function NatToString(n: nat): (r: string)
    ensures |r| >= 1
    ensures forall i :: 0 <= i < |r| ==> IsDigit(r[i])
    decreases n
  {
    if n < 10 then [('0' as int + n) as char]
    else NatToString(n / 10) + [('0' as int + n % 10) as char]
  }

  /** `String(n)` for any integer. */
  function IntToString(n: int): string
  {
    if n < 0 then "-" + NatToString(-n) else NatToString(n)
  }

  /** The value of a string of decimal digits. */
  function ParseDecimal(s: string): nat
    requires forall i :: 0 <= i < |s| ==> IsDigit(s[i])
    decreases |s|
  {
    if s == [] then 0
    else
      assert IsDigit(s[|s| - 1]);
      ParseDecimal(s[..|s| - 1]) * 10 + (s[|s| - 1] as int - '0' as int)
  }

  /** Printing a number in decimal loses nothing. */
  lemma {:induction false} ParsePrinted(n: nat)
    ensures ParseDecimal(NatToString(n)) == n
    decreases n
  {
    if n >= 10 {
      var r := NatToString(n);
      assert r[..|r| - 1] == NatToString(n / 10);
      ParsePrinted(n / 10);
    }
  }
}
