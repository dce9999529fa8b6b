/** `formatNumber(num)`: `num.toString()` with the regular expression
    `/\B(?=(\d{3})+(?!\d))/g` replaced by ",". The replacement is modelled position
    by position: a comma goes before position `p` when the zero-width match succeeds
    there, and the result is proved to be the usual thousands grouping. */
module Formatting {

  predicate IsDigit(c: char) { '0' <= c <= '9' }

  /** The regular expression's word characters `[A-Za-z0-9_]`. */
  predicate IsWordChar(c: char) {
    IsDigit(c) || 'a' <= c <= 'z' || 'A' <= c <= 'Z' || c == '_'
  }

  predicate AllDigits(s: string) {
    forall i :: 0 <= i < |s| ==> IsDigit(s[i])
  }

  function DigitChar(d: nat): (c: char)
    requires d < 10
    ensures IsDigit(c) && c as int - '0' as int == d
  {
    "0123456789"[d]
  }

  /** The number a string of decimal digits denotes, most significant digit first. */
  ghost function Value(s: string): int
    requires AllDigits(s)
  {
    if s == [] then 0 else 10 * Value(s[..|s| - 1]) + (s[|s| - 1] as int - '0' as int)
  }

  /** The decimal digits of a natural number, without leading zeros. */
  function Digits(n: nat): (s: string)
    ensures s != [] && AllDigits(s)
    ensures Value(s) == n
    ensures s[0] == '0' ==> n == 0
  {
    if n < 10 then
      [DigitChar(n)]
    else
      var init := Digits(n / 10);
      var s := init + [DigitChar(n % 10)];
      assert s[..|s| - 1] == init;
      s
  }

  /** `Number.prototype.toString()` of an integer: its decimal digits without
      leading zeros, after a minus sign when it is negative. */
  function IntToString(n: int): (r: string)
    ensures n >= 0 ==> r != [] && AllDigits(r) && Value(r) == n && (r[0] == '0' ==> n == 0)
    ensures n < 0 ==> |r| >= 2 && r[0] == '-' && AllDigits(r[1..]) && Value(r[1..]) == -n && r[1] != '0'
    ensures ',' !in r
  {
    if n < 0 then
      var r := "-" + Digits(-n);
      assert r[1..] == Digits(-n);
      r
    else
      Digits(n)
  }

  /** `\B` at position `p`: the characters on either side (nothing counts as a
      non-word character) are both word characters or both are not. */
  predicate NonBoundary(s: string, p: nat)
    requires p <= |s|
  {
    (p > 0 && IsWordChar(s[p - 1])) == (p < |s| && IsWordChar(s[p]))
  }

  /** The number of consecutive digits starting at position `p`. */
  function DigitRun(s: string, p: nat): (n: nat)
    requires p <= |s|
    ensures p + n <= |s|
    decreases |s| - p
  {
    if p < |s| && IsDigit(s[p]) then 1 + DigitRun(s, p + 1) else 0
  }

  /** The lookahead `(\d{3})+(?!\d)` succeeds at `p` with `k` groups of three. */
  ghost predicate GroupsEndAt(s: string, p: nat, k: nat) {
    && k >= 1 && p + 3 * k <= |s|
    && AllDigits(s[p..p + 3 * k])
    && (p + 3 * k == |s| || !IsDigit(s[p + 3 * k]))
  }

  /** The regular expression's lookahead, read literally. */
  ghost predicate LookaheadAt(s: string, p: nat)
    requires p <= |s|
  {
    exists k: nat :: GroupsEndAt(s, p, k)
  }

  /** Whether the replacement inserts a comma before position `p`: exactly where
      the regular expression `\B(?=(\d{3})+(?!\d))` matches. */
  function CommaAt(s: string, p: nat): (r: bool)
    requires p <= |s|
    ensures r <==> NonBoundary(s, p) && LookaheadAt(s, p)
  {
    LookaheadIsDigitRun(s, p);
    NonBoundary(s, p) && DigitRun(s, p) > 0 && DigitRun(s, p) % 3 == 0
  }

  /** The global replace from position `p` on: every position is tried in turn,
      since each match is empty. It only inserts commas: on a string without
      commas, deleting them again gives back the scanned suffix. */
  function Scan(s: string, p: nat): (r: string)
    requires p <= |s|
    ensures ',' !in s ==> StripCommas(r) == s[p..]
    decreases |s| - p
  {
    var c := if CommaAt(s, p) then "," else "";
    if p == |s| then
      c
    else
      var rest := Scan(s, p + 1);
      assert s[p..] == [s[p]] + s[p + 1..];
      StripAppend(c, [s[p]] + rest);
      StripAppend([s[p]], rest);
      c + ([s[p]] + rest)
  }

  /** `formatNumber(num)`; deleting its commas gives back `num.toString()`. */
  function FormatNumber(n: int): (r: string)
    ensures StripCommas(r) == IntToString(n)
  {
    var s := IntToString(n);
    assert s[0..] == s;
    Scan(s, 0)
  }

  lemma {:induction false} DigitRunEnd(s: string, p: nat, q: nat)
    requires p <= q <= |s|
    requires AllDigits(s[p..q])
    requires q == |s| || !IsDigit(s[q])
    ensures DigitRun(s, p) == q - p
    decreases q - p
  {
    if p < q {
      assert IsDigit(s[p..q][0]);
      assert s[p + 1..q] == s[p..q][1..];
      DigitRunEnd(s, p + 1, q);
    }
  }

  lemma {:induction false} DigitRunSpan(s: string, p: nat)
    requires p <= |s|
    ensures AllDigits(s[p..p + DigitRun(s, p)])
    ensures p + DigitRun(s, p) == |s| || !IsDigit(s[p + DigitRun(s, p)])
    decreases |s| - p
  {
    if p < |s| && IsDigit(s[p]) {
      DigitRunSpan(s, p + 1);
      var run := DigitRun(s, p);
      assert s[p..p + run] == [s[p]] + s[p + 1..p + 1 + DigitRun(s, p + 1)];
    }
  }

  /** The lookahead succeeds exactly when the run of digits starting here is a
      non-empty multiple of three long, which is what `CommaAt` tests. */
  lemma LookaheadIsDigitRun(s: string, p: nat)
    requires p <= |s|
    ensures LookaheadAt(s, p) <==> DigitRun(s, p) > 0 && DigitRun(s, p) % 3 == 0
  {
    var run := DigitRun(s, p);
    if LookaheadAt(s, p) {
      var k: nat :| GroupsEndAt(s, p, k);
      DigitRunEnd(s, p, p + 3 * k);
    }
    if run > 0 && run % 3 == 0 {
      DigitRunSpan(s, p);
      assert GroupsEndAt(s, p, run / 3);
    }
  }

  /** The scan restricted to a string of digits; `first` says whether the digits
      start the number (no comma possible in front of them). */
  ghost function DigitScan(t: string, first: bool): string
    decreases |t|
  {
    if t == [] then "" else (if !first && |t| % 3 == 0 then "," else "") + [t[0]] + DigitScan(t[1..], false)
  }

  lemma {:induction false} ScanDigits(s: string, p: nat)
    requires p <= |s| && AllDigits(s[p..])
    ensures Scan(s, p) == DigitScan(s[p..], !(p > 0 && IsWordChar(s[p - 1])))
    decreases |s| - p
  {
    DigitRunEnd(s, p, |s|);
    if p < |s| {
      assert IsDigit(s[p..][0]);
      assert s[p + 1..] == s[p..][1..];
      ScanDigits(s, p + 1);
    }
  }

  lemma DigitScanOne(t: string, first: bool)
    requires |t| == 1
    ensures DigitScan(t, first) == t
  {
    assert t[1..] == [];
  }

  lemma DigitScanTwo(t: string, first: bool)
    requires |t| == 2
    ensures DigitScan(t, first) == t
  {
    DigitScanOne(t[1..], false);
  }

  /** Three digits take a comma in front unless they start the number. */
  lemma DigitScanThree(t: string)
    requires |t| == 3
    ensures DigitScan(t, true) == t
    ensures DigitScan(t, false) == "," + t
  {
    DigitScanTwo(t[1..], false);
  }

  lemma DigitScanShort(t: string)
    requires |t| <= 3
    ensures DigitScan(t, true) == t
  {
    if |t| == 1 {
      DigitScanOne(t, true);
    } else if |t| == 2 {
      DigitScanTwo(t, true);
    } else if |t| == 3 {
      DigitScanThree(t);
    }
  }

  /** Scanning peels the last three digits off as a comma-separated group. */
  lemma {:induction false} DigitScanSplit(t: string, first: bool)
    requires |t| > 3
    ensures DigitScan(t, first) == DigitScan(t[..|t| - 3], first) + "," + t[|t| - 3..]
    decreases |t|
  {
    var head := t[..|t| - 3];
    if |t| == 4 {
      DigitScanThree(t[1..]);
      assert head == [t[0]];
      assert t[1..] == t[|t| - 3..];
    } else {
      DigitScanSplit(t[1..], false);
      assert t[1..][..|t| - 4] == head[1..];
      assert t[1..][|t| - 4..] == t[|t| - 3..];
    }
  }

  /** The digits split into groups from the right: the first group holds one to
      three digits, every other group exactly three. */
  function Chunks(d: string): (gs: seq<string>)
    ensures |gs| > 0
    decreases |d|
  {
    if |d| <= 3 then [d] else Chunks(d[..|d| - 3]) + [d[|d| - 3..]]
  }

  /** The groups joined with commas. */
  function Join(gs: seq<string>): string
    requires |gs| > 0
  {
    if |gs| == 1 then gs[0] else Join(gs[..|gs| - 1]) + "," + gs[|gs| - 1]
  }

  function Concat(gs: seq<string>): string {
    if gs == [] then "" else Concat(gs[..|gs| - 1]) + gs[|gs| - 1]
  }

  lemma {:induction false} ChunksShape(d: string)
    requires d != []
    ensures Concat(Chunks(d)) == d
    ensures 1 <= |Chunks(d)[0]| <= 3
    ensures forall i :: 0 < i < |Chunks(d)| ==> |Chunks(d)[i]| == 3
    decreases |d|
  {
    if |d| > 3 {
      var head := d[..|d| - 3];
      ChunksShape(head);
      var gs := Chunks(head) + [d[|d| - 3..]];
      assert gs[..|gs| - 1] == Chunks(head);
      assert d == head + d[|d| - 3..];
    } else {
      assert Concat([d]) == Concat([]) + d;
    }
  }

  lemma {:induction false} DigitScanIsJoin(d: string)
    requires d != []
    ensures DigitScan(d, true) == Join(Chunks(d))
    decreases |d|
  {
    if |d| <= 3 {
      DigitScanShort(d);
    } else {
      var head := d[..|d| - 3];
      DigitScanSplit(d, true);
      DigitScanIsJoin(head);
      var gs := Chunks(head) + [d[|d| - 3..]];
      assert gs[..|gs| - 1] == Chunks(head);
    }
  }

  /** The formatted number is its sign followed by its digit groups joined by
      commas: one to three digits first, then groups of exactly three. */
  lemma FormatNumberGroups(n: int)
    ensures var d := Digits(if n < 0 then -n else n);
      && FormatNumber(n) == (if n < 0 then "-" else "") + Join(Chunks(d))
      && Concat(Chunks(d)) == d
      && 1 <= |Chunks(d)[0]| <= 3
      && (forall i :: 0 < i < |Chunks(d)| ==> |Chunks(d)[i]| == 3)
  {
    var d := Digits(if n < 0 then -n else n);
    ChunksShape(d);
    DigitScanIsJoin(d);
    if n < 0 {
      NegativeScan(n);
    } else {
      var s := IntToString(n);
      assert s[0..] == d;
      ScanDigits(s, 0);
    }
  }

  /** No comma follows the minus sign: the scan copies it and goes on with the digits. */
  lemma NegativeScan(n: int)
    requires n < 0
    ensures FormatNumber(n) == "-" + DigitScan(Digits(-n), true)
  {
    var s := IntToString(n);
    assert s[1..] == Digits(-n);
    ScanDigits(s, 1);
    assert DigitRun(s, 0) == 0;
    assert !CommaAt(s, 0);
    assert Scan(s, 0) == [s[0]] + Scan(s, 1);
  }

  /** The characters of `s` other than commas. */
  function StripCommas(s: string): string {
    if s == [] then "" else (if s[0] == ',' then "" else [s[0]]) + StripCommas(s[1..])
  }

  lemma {:induction false} StripAppend(a: string, b: string)
    ensures StripCommas(a + b) == StripCommas(a) + StripCommas(b)
  {
    if a != [] {
      assert (a + b)[1..] == a[1..] + b;
      StripAppend(a[1..], b);
    } else {
      assert a + b == b;
    }
  }

  lemma DigitsExample()
    ensures Digits(1234567) == "1234567"
  {
    assert Digits(1) == "1";
    assert Digits(12) == "12";
    assert Digits(123) == "123";
    assert Digits(1234) == "1234";
    assert Digits(12345) == "12345";
    assert Digits(123456) == "123456";
  }

  lemma ChunksExample()
    ensures Chunks("1234567") == ["1", "234", "567"]
  {
    var d := "1234567";
    assert d[..4] == "1234" && d[..4][..1] == "1";
    assert Chunks("1") == ["1"];
    assert Chunks("1234") == ["1", "234"];
  }

  lemma JoinExample()
    ensures Join(["1", "234", "567"]) == "1,234,567"
  {
  }

  /** One million two hundred thirty-four thousand five hundred sixty-seven is
      shown as "1,234,567". */
  lemma FormatNumberExample()
    ensures FormatNumber(1234567) == "1,234,567"
  {
    DigitsExample();
    FormatNumberGroups(1234567);
    ChunksExample();
    JoinExample();
  }
}
