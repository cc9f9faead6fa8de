/** The ordering of saved frames before they are joined into a video: the
    directory listing is cut down to the ".png" names, and those are sorted,
    stably, by the number that follows "frame_" in the name (-1 when there
    is none). */
module FrameFiles {
  import opened Wrappers

  /** An ASCII decimal digit, what `\d` matches in the names written here. */
  predicate IsDigit(c: char)
  {
    '0' <= c <= '9'
  }

  /** Positions lo up to hi of s are all digits. */
  predicate DigitsIn(s: string, lo: nat, hi: nat)
  {
    lo <= hi <= |s| && forall k :: lo <= k < hi ==> IsDigit(s[k])
  }

  /** `int(s[lo:hi])` for a run of decimal digits, leading zeros allowed. */
  function Value(s: string, lo: nat, hi: nat): nat
    requires DigitsIn(s, lo, hi)
    decreases hi - lo
  {
    if hi == lo then 0 else 10 * Value(s, lo, hi - 1) + (s[hi - 1] - '0') as nat
  }

  /** Equal runs of digits have equal values, wherever they sit. */
  lemma {:induction false} ValueShift(s: string, j: nat, t: string, i: nat, m: nat)
    requires DigitsIn(s, j, j + m) && DigitsIn(t, i, i + m)
    requires forall k :: j <= k < j + m ==> s[k] == t[k - j + i]
    ensures Value(s, j, j + m) == Value(t, i, i + m)
  {
    if m > 0 {
      ValueShift(s, j, t, i, m - 1);
    }
  }

  // ---------------------------------------------------------------------
  // extract_number

  /** The pattern `frame_\d` starts at position i of s. */
  predicate MatchAt(s: string, i: int)
  {
    0 <= i && i + 7 <= |s|
    && s[i] == 'f' && s[i + 1] == 'r' && s[i + 2] == 'a' && s[i + 3] == 'm'
    && s[i + 4] == 'e' && s[i + 5] == '_' && IsDigit(s[i + 6])
  }

  /** No position of s starts the pattern. */
  predicate NoMatch(s: string)
  {
    forall j :: 0 <= j < |s| ==> !MatchAt(s, j)
  }

  /** The leftmost position at or after i where the pattern starts, as
      `re.search` scans for it. */
  function FindMatch(s: string, i: nat): (r: Option<nat>)
    ensures r.Some? ==> i <= r.value && MatchAt(s, r.value)
    ensures forall j :: i <= j && (r.None? || j < r.value) ==> !MatchAt(s, j)
    decreases |s| - i
  {
    if i + 7 > |s| then None
    else if MatchAt(s, i) then Some(i)
    else FindMatch(s, i + 1)
  }

  /** The length of the run of digits that starts at position j: what the
      greedy `\d+` takes. */
  function DigitRun(s: string, j: nat): (r: nat)
    requires j <= |s|
    ensures DigitsIn(s, j, j + r)
    ensures j + r == |s| || !IsDigit(s[j + r])
    decreases |s| - j
  {
    if j < |s| && IsDigit(s[j]) then 1 + DigitRun(s, j + 1) else 0
  }

  /** extract_number(filename): the value of the digits after the leftmost
      "frame_" that is followed by a digit, or -1 when there is none. */
  function ExtractNumber(s: string): (r: int)
    ensures r >= -1
  {
    match FindMatch(s, 0)
    case None => -1
    case Some(i) => Value(s, i + 6, i + 6 + DigitRun(s, i + 6))
  }

  /** The number is -1 exactly when no position of the name starts the
      pattern. */
  lemma {:induction false} ExtractNumberMissing(s: string)
    ensures ExtractNumber(s) == -1 <==> NoMatch(s)
  {
    match FindMatch(s, 0)
    case None =>
    case Some(i) =>
      assert MatchAt(s, i);
  }

  /** The canonical decimal digits of n. */
  function Decimal(n: nat): (r: string)
    ensures |r| >= 1 && DigitsIn(r, 0, |r|)
  {
    if n < 10 then [('0' as int + n) as char]
    else Decimal(n / 10) + [('0' as int + n % 10) as char]
  }

  /** Reading back the digits of n gives n. */
  lemma {:induction false} DecimalValue(n: nat)
    ensures Value(Decimal(n), 0, |Decimal(n)|) == n
  {
    if n >= 10 {
      var d, e := Decimal(n), Decimal(n / 10);
      assert d == e + [('0' as int + n % 10) as char];
      ValueShift(d, 0, e, 0, |e|);
      DecimalValue(n / 10);
    }
  }

  /** A name made of a prefix without the pattern, "frame_", a run of digits
      and a suffix that does not continue the run, yields the value of that
      run. */
  lemma {:induction false} FrameNameNumber(prefix: string, d: string, suffix: string)
    requires NoMatch(prefix) && |d| >= 1 && DigitsIn(d, 0, |d|)
    requires |suffix| == 0 || !IsDigit(suffix[0])
    ensures ExtractNumber(prefix + "frame_" + d + suffix) == Value(d, 0, |d|)
  {
    var s := prefix + "frame_" + d + suffix;
    var p := |prefix|;
    assert s == prefix + "frame_" + (d + suffix);
    PrefixOnlyMatchesAtEnd(prefix, d + suffix);
    FindMatchFirst(s, 0, p);
    RunAfterPrefix(prefix + "frame_", d, suffix);
    ExtractAt(s, p, |d|);
  }

  /** In head + d + suffix, the digits d are read as a run of their own
      when the suffix does not continue them. */
  lemma {:induction false} RunAfterPrefix(head: string, d: string, suffix: string)
    requires DigitsIn(d, 0, |d|) && (|suffix| == 0 || !IsDigit(suffix[0]))
    ensures DigitRun(head + d + suffix, |head|) == |d|
    ensures DigitsIn(head + d + suffix, |head|, |head| + |d|)
    ensures Value(head + d + suffix, |head|, |head| + |d|) == Value(d, 0, |d|)
  {
    var s, j := head + d + suffix, |head|;
    assert forall k :: j <= k < j + |d| ==> s[k] == d[k - j + 0];
    assert j + |d| == |s| || s[j + |d|] == suffix[0];
    RunOfDigits(s, j, |d|);
    ValueShift(s, j, d, 0, |d|);
  }

  /** With "frame_" appended to a prefix that has no match, followed by a
      text that starts with a digit, the first match is right after the
      prefix. */
  lemma {:induction false} PrefixOnlyMatchesAtEnd(prefix: string, tail: string)
    requires NoMatch(prefix) && |tail| >= 1 && IsDigit(tail[0])
    ensures MatchAt(prefix + "frame_" + tail, |prefix|)
    ensures forall j :: 0 <= j < |prefix| ==> !MatchAt(prefix + "frame_" + tail, j)
  {
    var s := prefix + "frame_" + tail;
    var p := |prefix|;
    assert s[p + 6] == tail[0];
    forall j | 0 <= j < p
      ensures !MatchAt(s, j)
    {
      if j + 7 <= p {
        assert s[..p] == prefix;
        assert !MatchAt(prefix, j);
      } else {
        assert s[j + 6] == "frame_"[j + 6 - p];
      }
    }
  }

  /** Once the scan has found position p and the digit run there has length
      n, the number is the value of that run. */
  lemma ExtractAt(s: string, p: nat, n: nat)
    requires FindMatch(s, 0) == Some(p) && DigitRun(s, p + 6) == n
    ensures DigitsIn(s, p + 6, p + 6 + n)
    ensures ExtractNumber(s) == Value(s, p + 6, p + 6 + n)
  {
  }

  /** When the first match from i is at m, the scan from i finds m. */
  lemma {:induction false} FindMatchFirst(s: string, i: nat, m: nat)
    requires i <= m && MatchAt(s, m)
    requires forall j :: i <= j < m ==> !MatchAt(s, j)
    ensures FindMatch(s, i) == Some(m)
    decreases m - i
  {
    if i < m {
      FindMatchFirst(s, i + 1, m);
    }
  }

  /** The digit run at j has length n when n digits there are followed by a
      non-digit or the end. */
  lemma {:induction false} RunOfDigits(s: string, j: nat, n: nat)
    requires DigitsIn(s, j, j + n)
    requires j + n == |s| || !IsDigit(s[j + n])
    ensures DigitRun(s, j) == n
    decreases n
  {
    if n > 0 {
      RunOfDigits(s, j + 1, n - 1);
    }
  }

  /** The name of frame n written with "frame_" and a ".png" extension is
      ordered by n. */
  lemma {:induction false} FrameNumberOfName(prefix: string, n: nat)
    requires NoMatch(prefix)
    ensures ExtractNumber(prefix + "frame_" + Decimal(n) + ".png") == n
  {
    FrameNameNumber(prefix, Decimal(n), ".png");
    DecimalValue(n);
  }

  // ---------------------------------------------------------------------
  // The ".png" filter

  predicate EndsWith(s: string, suffix: string)
  {
    |suffix| <= |s| && s[|s| - |suffix|..] == suffix
  }

  /** `[f for f in listing if f.endswith('.png')]`. */
  function PngFiles(listing: seq<string>): (r: seq<string>)
    ensures forall f :: f in r ==> EndsWith(f, ".png")
  {
    if |listing| == 0 then []
    else (if EndsWith(listing[0], ".png") then [listing[0]] else []) + PngFiles(listing[1..])
  }

  /** The filter keeps every ".png" name as often as the listing holds it,
      and nothing else. */
  lemma {:induction false} PngFilesCount(listing: seq<string>, f: string)
    ensures multiset(PngFiles(listing))[f] == if EndsWith(f, ".png") then multiset(listing)[f] else 0
  {
    if |listing| > 0 {
      PngFilesCount(listing[1..], f);
      assert listing == [listing[0]] + listing[1..];
    }
  }

  /** Filtering a listing with a known first name. */
  lemma {:induction false} PngFilesCons(x: string, rest: seq<string>)
    ensures PngFiles([x] + rest) == (if EndsWith(x, ".png") then [x] else []) + PngFiles(rest)
  {
    assert ([x] + rest)[1..] == rest;
  }

  /** The filter keeps the listing order: filtering a concatenation
      concatenates the filtered parts. */
  lemma {:induction false} PngFilesAppend(a: seq<string>, b: seq<string>)
    ensures PngFiles(a + b) == PngFiles(a) + PngFiles(b)
  {
    if |a| > 0 {
      var h := if EndsWith(a[0], ".png") then [a[0]] else [];
      assert a + b == [a[0]] + (a[1..] + b);
      PngFilesCons(a[0], a[1..] + b);
      PngFilesAppend(a[1..], b);
      assert a == [a[0]] + a[1..];
      PngFilesCons(a[0], a[1..]);
      assert h + (PngFiles(a[1..]) + PngFiles(b)) == (h + PngFiles(a[1..])) + PngFiles(b);
    } else {
      assert a + b == b;
    }
  }

  // ---------------------------------------------------------------------
  // sorted(..., key=extract_number)

  /** Keys never decrease along fs. */
  predicate SortedByKey(fs: seq<string>, key: string -> int)
  {
    forall p, q :: 0 <= p < q < |fs| ==> key(fs[p]) <= key(fs[q])
  }

  /** The names of fs whose key is k, in the order of fs. */
  function WithKey(fs: seq<string>, key: string -> int, k: int): (r: seq<string>)
    ensures forall f :: f in r ==> f in fs && key(f) == k
  {
    if |fs| == 0 then []
    else (if key(fs[0]) == k then [fs[0]] else []) + WithKey(fs[1..], key, k)
  }

  /** A name whose key is at most every key of a sorted list can go in
      front of it. */
  lemma {:induction false} SortedCons(x: string, ys: seq<string>, key: string -> int)
    requires SortedByKey(ys, key)
    requires forall q :: 0 <= q < |ys| ==> key(x) <= key(ys[q])
    ensures SortedByKey([x] + ys, key)
  {
    var r := [x] + ys;
    forall p, q | 0 <= p < q < |r|
      ensures key(r[p]) <= key(r[q])
    {
      assert r[q] == ys[q - 1];
      if p > 0 {
        assert r[p] == ys[p - 1];
      }
    }
  }

  /** Put f in front of the first name of the sorted fs whose key is not
      smaller, so that it stays ahead of the names with its own key. */
  function Insert(f: string, fs: seq<string>, key: string -> int): (r: seq<string>)
    requires SortedByKey(fs, key)
    ensures multiset(r) == multiset(fs) + multiset{f}
    ensures SortedByKey(r, key)
  {
    if |fs| == 0 || key(f) <= key(fs[0]) then
      SortedCons(f, fs, key);
      [f] + fs
    else
      var rest := Insert(f, fs[1..], key);
      assert fs == [fs[0]] + fs[1..];
      assert forall q :: 0 <= q < |rest| ==> key(fs[0]) <= key(rest[q]) by {
        forall q | 0 <= q < |rest|
          ensures key(fs[0]) <= key(rest[q])
        {
          assert rest[q] in multiset(rest);
          if rest[q] != f {
            assert rest[q] in fs[1..];
          }
        }
      }
      SortedCons(fs[0], rest, key);
      [fs[0]] + rest
  }

  /** The stable sort that `sorted` performs: insertion of each name, from
      the last to the first, into the sorted rest. */
  function SortByKey(fs: seq<string>, key: string -> int): (r: seq<string>)
    ensures multiset(r) == multiset(fs)
    ensures SortedByKey(r, key)
  {
    if |fs| == 0 then []
    else
      assert fs == [fs[0]] + fs[1..];
      Insert(fs[0], SortByKey(fs[1..], key), key)
  }

  /** Selecting by key from a list with a known first name. */
  lemma {:induction false} WithKeyCons(x: string, ys: seq<string>, key: string -> int, k: int)
    ensures WithKey([x] + ys, key, k) == (if key(x) == k then [x] else []) + WithKey(ys, key, k)
  {
    assert ([x] + ys)[1..] == ys;
  }

  /** Inserting f adds it in front of the names that share its key. */
  lemma {:induction false} InsertWithKey(f: string, fs: seq<string>, key: string -> int, k: int)
    requires SortedByKey(fs, key)
    ensures WithKey(Insert(f, fs, key), key, k) == (if key(f) == k then [f] else []) + WithKey(fs, key, k)
  {
    if |fs| == 0 || key(f) <= key(fs[0]) {
      assert Insert(f, fs, key) == [f] + fs;
      WithKeyCons(f, fs, key, k);
    } else {
      var rest := Insert(f, fs[1..], key);
      assert Insert(f, fs, key) == [fs[0]] + rest;
      WithKeyCons(fs[0], rest, key, k);
      InsertWithKey(f, fs[1..], key, k);
      assert fs == [fs[0]] + fs[1..];
      WithKeyCons(fs[0], fs[1..], key, k);
      var tail := WithKey(fs[1..], key, k);
      if key(f) == k {
        assert key(fs[0]) != k;
        assert WithKey(rest, key, k) == [f] + tail;
        assert WithKey(fs, key, k) == tail;
      } else {
        assert WithKey(rest, key, k) == tail;
      }
    }
  }

  /** Stability: for every key, the names with that key come out in the
      order they came in. */
  lemma {:induction false} SortByKeyStable(fs: seq<string>, key: string -> int, k: int)
    ensures WithKey(SortByKey(fs, key), key, k) == WithKey(fs, key, k)
  {
    if |fs| > 0 {
      SortByKeyStable(fs[1..], key, k);
      InsertWithKey(fs[0], SortByKey(fs[1..], key), key, k);
    }
  }

  /** frame_files: the ".png" names of the listing, sorted stably by frame
      number. */
  function FrameOrder(listing: seq<string>): (r: seq<string>)
    ensures SortedByKey(r, ExtractNumber)
    ensures forall f :: multiset(r)[f] == if EndsWith(f, ".png") then multiset(listing)[f] else 0
  {
    forall f
      ensures multiset(PngFiles(listing))[f] == if EndsWith(f, ".png") then multiset(listing)[f] else 0
    {
      PngFilesCount(listing, f);
    }
    SortByKey(PngFiles(listing), ExtractNumber)
  }

  /** Among the ".png" names, those with the same frame number (for
      instance all the names without "frame_", key -1) keep their listing
      order. */
  lemma {:induction false} FrameOrderStable(listing: seq<string>, k: int)
    ensures WithKey(FrameOrder(listing), ExtractNumber, k) == WithKey(PngFiles(listing), ExtractNumber, k)
  {
    SortByKeyStable(PngFiles(listing), ExtractNumber, k);
  }
}
