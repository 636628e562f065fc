/** `util.split_caps`: cut a PascalCase label into words at capital letters. */
module Util {
  import opened Strings

  /** The loop state of `split_caps`: the pieces appended so far (`lst`), the
      start of the current piece (`x`) and whether the previous character was
      a capital past position 0 (`b`). */
  datatype Scan = Scan(pieces: seq<string>, cut: nat, inCaps: bool)

  /** The bookkeeping part of the loop invariant before the iteration at index `i`. */
  predicate ScanShape(key: string, i: nat, s: Scan) {
    && i <= |key|
    && s.cut <= i
    && (s.cut == 0 || s.cut + 2 <= i)
    && (s.inCaps <==> i >= 2 && IsUpperChar(key[i - 1]))
  }

  /** The whole loop invariant: the pieces so far are the label up to the
      cut, and none of them is empty. */
  predicate ScanInv(key: string, i: nat, s: Scan) {
    && ScanShape(key, i, s)
    && Concat(s.pieces) == key[..s.cut]
    && (forall k :: 0 <= k < |s.pieces| ==> s.pieces[k] != [])
  }

  /** One iteration of the loop, at index `i`. */
  function Step(key: string, i: nat, s: Scan): (t: Scan)
    requires i < |key| && ScanShape(key, i, s)
    ensures ScanShape(key, i + 1, t)
  {
    if i > 0 && IsUpperChar(key[i]) then
      if s.inCaps && !IsUpper(key[s.cut..i]) then Scan(s.pieces + [key[s.cut..i - 1]], i - 1, true)
      else s.(inCaps := true)
    else if s.inCaps then Scan(s.pieces + [key[s.cut..i - 1]], i - 1, false)
    else s
  }

  /** Closing the current piece one character before `i` keeps the invariant. */
  lemma CutKeeps(key: string, i: nat, s: Scan, b: bool)
    requires i < |key| && ScanInv(key, i, s) && s.inCaps
    requires b <==> IsUpperChar(key[i])
    ensures ScanInv(key, i + 1, Scan(s.pieces + [key[s.cut..i - 1]], i - 1, b))
  {
    ConcatSnoc(s.pieces, key[s.cut..i - 1]);
    assert key[..s.cut] + key[s.cut..i - 1] == key[..i - 1];
  }

  /** Every iteration keeps the whole invariant. */
  lemma StepKeeps(key: string, i: nat, s: Scan)
    requires i < |key| && ScanInv(key, i, s)
    ensures ScanInv(key, i + 1, Step(key, i, s))
  {
    if s.inCaps {
      CutKeeps(key, i, s, i > 0 && IsUpperChar(key[i]));
    }
  }

  /** The loop state after the first `n` iterations. */
  function ScanTo(key: string, n: nat): (s: Scan)
    requires n <= |key|
    ensures ScanShape(key, n, s)
  {
    if n == 0 then Scan([], 0, false) else Step(key, n - 1, ScanTo(key, n - 1))
  }

  /** The invariant holds before every iteration. */
  lemma {:induction false} ScanToKeeps(key: string, n: nat)
    requires n <= |key|
    ensures ScanInv(key, n, ScanTo(key, n))
  {
    if n > 0 {
      ScanToKeeps(key, n - 1);
      StepKeeps(key, n - 1, ScanTo(key, n - 1));
    }
  }

  /** The list `split_caps(key)` returns. */
  function SplitCaps(key: string): (pieces: seq<string>)
    ensures Concat(pieces) == key
    ensures |pieces| >= 1
    ensures key != [] ==> forall k :: 0 <= k < |pieces| ==> pieces[k] != []
  {
    var s := ScanTo(key, |key|);
    ScanToKeeps(key, |key|);
    ConcatSnoc(s.pieces, key[s.cut..]);
    assert key[..s.cut] + key[s.cut..] == key;
    s.pieces + [key[s.cut..]]
  }

  /** `split_caps` as the source writes it: one left-to-right scan. */
  method ScanSplitCaps(key: string) returns (lst: seq<string>)
    ensures lst == SplitCaps(key)
    ensures Concat(lst) == key && |lst| >= 1
    ensures key != [] ==> forall k :: 0 <= k < |lst| ==> lst[k] != []
  {
    var b := false;
    lst := [];
    var x: nat := 0;
    for i := 0 to |key|
      invariant Scan(lst, x, b) == ScanTo(key, i)
      invariant b <==> i >= 2 && IsUpperChar(key[i - 1])
    {
      var ch := key[i];
      if i > 0 && IsUpperChar(ch) {
        var temp := key[x..i];
        if b && !IsUpper(temp) {
          lst := lst + [key[x..i - 1]];
          x := i - 1;
        }
        b := true;
      } else if b {
        lst := lst + [key[x..i - 1]];
        b := false;
        x := i - 1;
      }
    }
    lst := lst + [key[x..]];
  }

  /** A stretch without capitals after a lower-case position leaves the scan state alone. */
  lemma {:induction false} QuietRun(key: string, n: nat, m: nat)
    requires n <= m <= |key|
    requires !ScanTo(key, n).inCaps
    requires forall k :: n <= k < m && k > 0 ==> !IsUpperChar(key[k])
    ensures ScanTo(key, m) == ScanTo(key, n)
  {
    if m > n {
      QuietRun(key, n, m - 1);
    }
  }

  /** A label with no capital after its first character comes back whole. */
  lemma NoCapsSinglePiece(key: string)
    requires forall k :: 1 <= k < |key| ==> !IsUpperChar(key[k])
    ensures SplitCaps(key) == [key]
  {
    QuietRun(key, 0, |key|);
  }

  /** Two capitalised words with no further capitals come apart where the second begins. */
  lemma {:induction false} TwoWords(a: string, b: string)
    requires |a| >= 1 && |b| >= 2 && IsUpperChar(b[0])
    requires forall k :: 1 <= k < |a| ==> !IsUpperChar(a[k])
    requires forall k :: 1 <= k < |b| ==> !IsUpperChar(b[k])
    ensures SplitCaps(a + b) == [a, b]
  {
    var key := a + b;
    var n := |a|;
    QuietRun(key, 0, n);
    assert ScanTo(key, n + 1) == Scan([], 0, true);
    assert key[0..n] == a;
    assert ScanTo(key, n + 2) == Scan([a], n, false);
    QuietRun(key, n + 2, |key|);
    assert key[n..] == b;
  }

  lemma ExampleString()
    ensures SplitCaps("ExampleString") == ["Example", "String"]
  {
    assert "Example" + "String" == "ExampleString";
    assert IsUpperChar("String"[0]);
    TwoWords("Example", "String");
  }

  /** A word followed by two capitals: the second capital closes the word,
      and the scan is inside a run of capitals. */
  lemma WordThenCaps(a: string, b: string)
    requires |a| >= 2 && IsLowerChar(a[1]) && |b| >= 2 && IsUpperChar(b[0]) && IsUpperChar(b[1])
    requires forall k :: 1 <= k < |a| ==> !IsUpperChar(a[k])
    ensures ScanTo(a + b, |a| + 2) == Scan([a], |a|, true)
  {
    var key := a + b;
    var n := |a|;
    QuietRun(key, 0, n);
    assert ScanTo(key, n + 1) == Scan([], 0, true);
    assert key[0..n + 1][1] == a[1];
    UpperFromMeans(key[0..n + 1], false);
    assert key[0..n] == a;
  }

  /** The loop state after iterations `n` to `m - 1`, starting from `s`. */
  function RunFrom(key: string, n: nat, m: nat, s: Scan): (t: Scan)
    requires n <= m <= |key| && ScanShape(key, n, s)
    ensures ScanShape(key, m, t)
    decreases m - n
  {
    if n == m then s else RunFrom(key, n + 1, m, Step(key, n, s))
  }

  /** The first `m` iterations are the first `n` followed by the rest. */
  lemma {:induction false} ScanToSplit(key: string, n: nat, m: nat)
    requires n <= m <= |key|
    ensures ScanTo(key, m) == RunFrom(key, n, m, ScanTo(key, n))
    decreases m - n
  {
    if n < m {
      ScanToSplit(key, n + 1, m);
    }
  }

  lemma AllCapsRun(key: string, i: nat, j: nat)
    requires i < j <= |key|
    requires forall k :: i <= k < j ==> IsUpperChar(key[k])
    ensures IsUpper(key[i..j])
  {
    var run := key[i..j];
    forall k | 0 <= k < |run| ensures !IsLowerChar(run[k]) {
      assert run[k] == key[i + k];
    }
    assert IsUpperChar(run[0]);
    UpperFromMeans(run, false);
  }

  /** Once a run of capitals has started a piece, further capitals extend it. */
  lemma {:induction false} CapsRun(key: string, n: nat, m: nat, s: Scan)
    requires 0 < n <= m <= |key| && ScanShape(key, n, s)
    requires s.inCaps && s.cut < n
    requires forall k :: s.cut <= k < m ==> IsUpperChar(key[k])
    ensures RunFrom(key, n, m, s) == s
    decreases m - n
  {
    if n < m {
      AllCapsRun(key, s.cut, n);
      assert Step(key, n, s) == s;
      CapsRun(key, n + 1, m, s);
    }
  }

  /** After a word and an acronym the scan still holds the word alone. */
  lemma AcronymScan(a: string, b: string)
    requires |a| >= 2 && IsLowerChar(a[1]) && |b| >= 2
    requires forall k :: 1 <= k < |a| ==> !IsUpperChar(a[k])
    requires forall k :: 0 <= k < |b| ==> IsUpperChar(b[k])
    ensures ScanTo(a + b, |a + b|) == Scan([a], |a|, true)
  {
    var key := a + b;
    var n := |a|;
    var st := Scan([a], n, true);
    WordThenCaps(a, b);
    forall k | n <= k < |key| ensures IsUpperChar(key[k]) {
      assert key[k] == b[k - n];
    }
    CapsRun(key, n + 2, |key|, st);
    ScanToSplit(key, n + 2, |key|);
  }

  /** A word followed by an acronym: the acronym stays in one piece. */
  lemma WordThenAcronym(a: string, b: string)
    requires |a| >= 2 && IsLowerChar(a[1]) && |b| >= 2
    requires forall k :: 1 <= k < |a| ==> !IsUpperChar(a[k])
    requires forall k :: 0 <= k < |b| ==> IsUpperChar(b[k])
    ensures SplitCaps(a + b) == [a, b]
  {
    AcronymScan(a, b);
    assert (a + b)[|a|..] == b;
  }

  lemma MailingGuid()
    ensures SplitCaps("MailingGUID") == ["Mailing", "GUID"]
  {
    assert "Mailing" + "GUID" == "MailingGUID";
    assert IsLowerChar("Mailing"[1]);
    WordThenAcronym("Mailing", "GUID");
  }

  lemma GetStatus()
    ensures SplitCaps("GetStatus") == ["Get", "Status"]
  {
    assert "Get" + "Status" == "GetStatus";
    assert IsUpperChar("Status"[0]);
    TwoWords("Get", "Status");
  }

  /** A lone trailing capital is not split off. */
  lemma TrailingCapitalKept()
    ensures SplitCaps("GetX") == ["GetX"]
  {
    var key := "GetX";
    QuietRun(key, 0, 3);
    assert ScanTo(key, 4) == Scan([], 0, true);
  }

  lemma EmptyLabel()
    ensures SplitCaps("") == [""]
  {
  }
}
