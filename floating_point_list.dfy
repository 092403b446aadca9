/**
 * `encode_floating_point_list`: a list of ranges, some of them +inf, becomes the
 * lengths of the alternating runs of infinite and finite values (starting with an
 * infinite run, possibly empty) and the finite values in order.
 */
module FloatingPointList {
  import opened Wrappers

  /** A range reading: +inf, or any other value (only equality with +inf is ever tested). */
  datatype R = PosInf | Fin(v: real)

  /** The pair `(runs, values)` the encoder returns. */
  datatype Encoding = Encoding(runs: seq<nat>, values: seq<real>)

  /** The exceptions raised by the encoder's final self-checks. */
  datatype EncodeError =
    | RunSumMismatch(total: int, length: int)
    | NonPositiveRun
    | ValueCountMismatch(count: int, values: int)

  /** Run `j` holds infinite values when `j` is even. */
  predicate IsInfRun(j: nat)
  {
    j % 2 == 0
  }

  lemma NextRunKind(j: nat)
    ensures IsInfRun(j + 1) <==> !IsInfRun(j)
  {
  }

  /** `sum(runs)` */
  function Sum(runs: seq<nat>): nat
  {
    if runs == [] then 0 else Sum(runs[..|runs| - 1]) + runs[|runs| - 1]
  }

  /** `sum(runs[1::2])`: the lengths of the finite runs. */
  function OddSum(runs: seq<nat>): nat
  {
    if runs == [] then 0
    else OddSum(runs[..|runs| - 1]) + (if IsInfRun(|runs| - 1) then 0 else runs[|runs| - 1])
  }

  /** The values of `s` other than +inf, in order. */
  function Finite(s: seq<R>): seq<real>
  {
    if s == [] then []
    else Finite(s[..|s| - 1]) + (if s[|s| - 1].PosInf? then [] else [s[|s| - 1].v])
  }

  /** `values` after `x` is processed: a finite `x` is appended. */
  function Push(values: seq<real>, x: R): seq<real>
  {
    if x.PosInf? then values else values + [x.v]
  }

  /** Every run after the first is non-empty and the finite runs account for every value. */
  predicate Canonical(e: Encoding)
  {
    && |e.runs| >= 1
    && (forall j :: 1 <= j < |e.runs| ==> e.runs[j] >= 1)
    && OddSum(e.runs) == |e.values|
  }

  lemma SplitLast<T>(s: seq<T>)
    requires |s| >= 1
    ensures s[..|s| - 1] + [s[|s| - 1]] == s
  {
  }

  lemma SnocSums(runs: seq<nat>, c: nat)
    ensures Sum(runs + [c]) == Sum(runs) + c
    ensures OddSum(runs + [c]) == OddSum(runs) + (if IsInfRun(|runs|) then 0 else c)
  {
    assert (runs + [c])[..|runs|] == runs;
  }

  /** One element processed: one of the same kind as the last run lengthens it, one of the other kind opens a run of length one. */
  function Extend(e: Encoding, x: R): (r: Encoding)
    requires |e.runs| >= 1
    ensures |r.runs| >= |e.runs| && IsInfRun(|r.runs| - 1) == x.PosInf?
    ensures r.values == Push(e.values, x)
    ensures if IsInfRun(|e.runs| - 1) == x.PosInf? then r.runs == e.runs[..|e.runs| - 1] + [e.runs[|e.runs| - 1] + 1]
            else r.runs == e.runs + [1]
  {
    var k := |e.runs| - 1;
    if IsInfRun(k) == x.PosInf? then
      Encoding(e.runs[..k] + [e.runs[k] + 1], Push(e.values, x))
    else
      Encoding(e.runs + [1], Push(e.values, x))
  }

  /** One element processed: the runs grow by one in total, and the finite runs keep pace with the values. */
  lemma ExtendSums(e: Encoding, x: R)
    requires |e.runs| >= 1
    ensures Sum(Extend(e, x).runs) == Sum(e.runs) + 1
    ensures OddSum(Extend(e, x).runs) - |Extend(e, x).values| == OddSum(e.runs) - |e.values|
  {
    var k := |e.runs| - 1;
    var front := e.runs[..k];
    if IsInfRun(k) == x.PosInf? {
      SnocSums(front, e.runs[k] + 1);
    } else {
      SnocSums(e.runs, 1);
    }
  }

  lemma ExtendCanonical(e: Encoding, x: R)
    requires Canonical(e)
    ensures Canonical(Extend(e, x))
  {
    var r := Extend(e, x);
    var k := |e.runs| - 1;
    ExtendSums(e, x);
    forall j | 1 <= j < |r.runs|
      ensures r.runs[j] >= 1
    {
      if j < k {
        assert r.runs[j] == e.runs[j];
      }
    }
  }

  /** The encoding, element by element. */
  function Encode(s: seq<R>): (e: Encoding)
    ensures |e.runs| >= 1
    ensures s != [] ==> (IsInfRun(|e.runs| - 1) <==> s[|s| - 1].PosInf?)
  {
    if s == [] then Encoding([0], [])
    else Extend(Encode(s[..|s| - 1]), s[|s| - 1])
  }

  /** Every encoding is canonical. */
  lemma {:induction false} EncodeCanonical(s: seq<R>)
    ensures Canonical(Encode(s))
  {
    if s != [] {
      EncodeCanonical(s[..|s| - 1]);
      ExtendCanonical(Encode(s[..|s| - 1]), s[|s| - 1]);
    }
  }

  /** The runs cover the whole list. */
  lemma {:induction false} EncodeCoversList(s: seq<R>)
    ensures Sum(Encode(s).runs) == |s|
  {
    if s != [] {
      var front, x := s[..|s| - 1], s[|s| - 1];
      assert s == front + [x];
      EncodeCoversList(front);
      EncodeSnoc(front, x);
      var e := Encode(front);
      ExtendSums(e, x);
    }
  }

  /** The values are the list's finite elements, in order. */
  lemma {:induction false} EncodeKeepsFiniteValues(s: seq<R>)
    ensures Encode(s).values == Finite(s)
  {
    if s != [] {
      var front, x := s[..|s| - 1], s[|s| - 1];
      assert s == front + [x];
      EncodeKeepsFiniteValues(front);
      EncodeSnoc(front, x);
      var e := Encode(front);
      assert Extend(e, x).values == Push(e.values, x);
      assert Finite(s) == Finite(front) + (if x.PosInf? then [] else [x.v]);
    }
  }

  /** How one more element changes the first run. */
  lemma ExtendFirstRun(e: Encoding, x: R)
    requires Canonical(e)
    ensures |Extend(e, x).runs| == 1 <==> |e.runs| == 1 && x.PosInf?
    ensures Extend(e, x).runs[0] == if |e.runs| == 1 && x.PosInf? then e.runs[0] + 1 else e.runs[0]
  {
    var k := |e.runs| - 1;
    if IsInfRun(k) == x.PosInf? {
      assert Extend(e, x).runs == e.runs[..k] + [e.runs[k] + 1];
    } else {
      assert Extend(e, x).runs == e.runs + [1];
    }
  }

  /**
   * The first run counts the leading +inf of `s`: it is 0 exactly when `s` starts with a
   * finite value, and it is the only run exactly when it covers all of `s`.
   */
  predicate FirstRunCounts(s: seq<R>, runs: seq<nat>)
    requires |runs| >= 1
  {
    var n := runs[0];
    && n <= |s|
    && (forall j :: 0 <= j < n ==> s[j] == PosInf)
    && (n < |s| ==> s[n].Fin?)
    && (|runs| == 1 <==> n == |s|)
  }

  lemma FirstRunExtend(s: seq<R>, e: Encoding, x: R)
    requires Canonical(e) && FirstRunCounts(s, e.runs)
    ensures FirstRunCounts(s + [x], Extend(e, x).runs)
  {
    ExtendFirstRun(e, x);
    var t := s + [x];
    var n := Extend(e, x).runs[0];
    forall j | 0 <= j < n
      ensures t[j] == PosInf
    {
      if j < |s| {
        assert t[j] == s[j];
      }
    }
    if n < |s| {
      assert t[n] == s[n];
    }
  }

  /** The encoding's first run counts the leading +inf, and the empty list encodes as `[0]` with no values. */
  lemma {:induction false} EncodeFirstRun(s: seq<R>)
    ensures FirstRunCounts(s, Encode(s).runs)
    ensures s == [] ==> Encode(s) == Encoding([0], [])
  {
    if s != [] {
      var front, x := s[..|s| - 1], s[|s| - 1];
      assert s == front + [x];
      EncodeFirstRun(front);
      EncodeSnoc(front, x);
      EncodeCanonical(front);
      FirstRunExtend(front, Encode(front), x);
    }
  }

  /** `n` copies of `b`. */
  function Copies(b: bool, n: nat): (s: seq<bool>)
    ensures |s| == n
  {
    if n == 0 then [] else Copies(b, n - 1) + [b]
  }

  /** Position by position, whether the decoded list holds +inf there. */
  function Kinds(runs: seq<nat>): seq<bool>
  {
    if runs == [] then [] else Kinds(runs[..|runs| - 1]) + Copies(IsInfRun(|runs| - 1), runs[|runs| - 1])
  }

  /** The number of finite positions. */
  function FiniteCount(kinds: seq<bool>): nat
  {
    if kinds == [] then 0 else FiniteCount(kinds[..|kinds| - 1]) + (if kinds[|kinds| - 1] then 0 else 1)
  }

  /** The finite positions take the values in order. */
  function Fill(kinds: seq<bool>, values: seq<real>): (s: seq<R>)
    requires FiniteCount(kinds) == |values|
    ensures |s| == |kinds|
  {
    if kinds == [] then []
    else
      var front := kinds[..|kinds| - 1];
      if kinds[|kinds| - 1] then Fill(front, values) + [PosInf]
      else Fill(front, values[..|values| - 1]) + [Fin(values[|values| - 1])]
  }

  lemma {:induction false} FiniteCountAppend(a: seq<bool>, b: seq<bool>)
    ensures FiniteCount(a + b) == FiniteCount(a) + FiniteCount(b)
    decreases |b|
  {
    if b != [] {
      var front := b[..|b| - 1];
      assert (a + b)[..|a + b| - 1] == a + front;
      FiniteCountAppend(a, front);
    } else {
      assert a + b == a;
    }
  }

  lemma {:induction false} FiniteCountCopies(b: bool, n: nat)
    ensures FiniteCount(Copies(b, n)) == if b then 0 else n
  {
    if n > 0 {
      assert Copies(b, n)[..n - 1] == Copies(b, n - 1);
      FiniteCountCopies(b, n - 1);
    }
  }

  lemma {:induction false} FiniteCountKinds(runs: seq<nat>)
    ensures FiniteCount(Kinds(runs)) == OddSum(runs)
  {
    if runs != [] {
      var k := |runs| - 1;
      FiniteCountKinds(runs[..k]);
      FiniteCountAppend(Kinds(runs[..k]), Copies(IsInfRun(k), runs[k]));
      FiniteCountCopies(IsInfRun(k), runs[k]);
    }
  }

  /** The list an encoding stands for: run `j` expands to +inf values if `j` is even, to the next values otherwise. */
  function Decode(runs: seq<nat>, values: seq<real>): seq<R>
    requires OddSum(runs) == |values|
  {
    FiniteCountKinds(runs);
    Fill(Kinds(runs), values)
  }

  lemma KindsAppend(runs: seq<nat>, c: nat)
    ensures Kinds(runs + [c]) == Kinds(runs) + Copies(IsInfRun(|runs|), c)
  {
    assert (runs + [c])[..|runs|] == runs;
  }

  lemma CopiesSnoc(b: bool, n: nat)
    ensures Copies(b, n + 1) == Copies(b, n) + [b]
  {
  }

  lemma AppendSnoc<T>(a: seq<T>, b: seq<T>, x: T)
    ensures a + (b + [x]) == (a + b) + [x]
  {
  }

  lemma KindsSnoc(runs: seq<nat>, c: nat)
    ensures Kinds(runs + [c + 1]) == Kinds(runs + [c]) + [IsInfRun(|runs|)]
  {
    var b := IsInfRun(|runs|);
    KindsAppend(runs, c);
    KindsAppend(runs, c + 1);
    CopiesSnoc(b, c);
    AppendSnoc(Kinds(runs), Copies(b, c), b);
  }

  lemma FillSnoc(kinds: seq<bool>, values: seq<real>, x: R)
    requires FiniteCount(kinds) == |values|
    ensures FiniteCount(kinds + [x.PosInf?]) == |Push(values, x)|
    ensures Fill(kinds + [x.PosInf?], Push(values, x)) == Fill(kinds, values) + [x]
  {
    var extended := kinds + [x.PosInf?];
    assert extended[..|kinds|] == kinds;
    var pushed := Push(values, x);
    if !x.PosInf? {
      assert pushed[..|values|] == values;
    }
  }

  /** One more element of the kind of the last run: the decoded list grows by that element. */
  lemma DecodeSnoc(runs: seq<nat>, c: nat, values: seq<real>, x: R)
    requires OddSum(runs + [c]) == |values|
    requires IsInfRun(|runs|) <==> x.PosInf?
    ensures OddSum(runs + [c + 1]) == |Push(values, x)|
    ensures Decode(runs + [c + 1], Push(values, x)) == Decode(runs + [c], values) + [x]
  {
    SnocSums(runs, c);
    SnocSums(runs, c + 1);
    KindsSnoc(runs, c);
    FiniteCountKinds(runs + [c]);
    FillSnoc(Kinds(runs + [c]), values, x);
  }

  /** An empty last run decodes to nothing. */
  lemma DecodeEmptyRun(runs: seq<nat>, values: seq<real>)
    requires OddSum(runs) == |values|
    ensures OddSum(runs + [0]) == |values|
    ensures Decode(runs + [0], values) == Decode(runs, values)
  {
    SnocSums(runs, 0);
    assert (runs + [0])[..|runs|] == runs;
    assert Kinds(runs + [0]) == Kinds(runs);
  }

  /** An element of the last run's kind lengthens that run. */
  lemma DecodeLengthenRun(e: Encoding, x: R)
    requires Canonical(e) && IsInfRun(|e.runs| - 1) == x.PosInf?
    ensures OddSum(Extend(e, x).runs) == |Extend(e, x).values|
    ensures Decode(Extend(e, x).runs, Extend(e, x).values) == Decode(e.runs, e.values) + [x]
  {
    var r := Extend(e, x);
    var k := |e.runs| - 1;
    var rs := e.runs[..k];
    var c := e.runs[k];
    assert rs + [c] == e.runs;
    assert r.runs == rs + [c + 1];
    assert r.values == Push(e.values, x);
    DecodeSnoc(rs, c, e.values, x);
  }

  /** An element of the other kind opens a run. */
  lemma DecodeOpenRun(e: Encoding, x: R)
    requires Canonical(e) && IsInfRun(|e.runs| - 1) != x.PosInf?
    ensures OddSum(Extend(e, x).runs) == |Extend(e, x).values|
    ensures Decode(Extend(e, x).runs, Extend(e, x).values) == Decode(e.runs, e.values) + [x]
  {
    var r := Extend(e, x);
    assert r.runs == e.runs + [0 + 1];
    DecodeEmptyRun(e.runs, e.values);
    DecodeSnoc(e.runs, 0, e.values, x);
  }

  lemma EncodeSnoc(front: seq<R>, x: R)
    ensures Encode(front + [x]) == Extend(Encode(front), x)
  {
    assert (front + [x])[..|front|] == front;
  }

  /** Decoding the encoding gives back the list. */
  lemma {:induction false} DecodeEncode(s: seq<R>)
    ensures Canonical(Encode(s))
    ensures Decode(Encode(s).runs, Encode(s).values) == s
  {
    EncodeCanonical(s);
    if s == [] {
      assert Kinds([0]) == Kinds([]) + Copies(true, 0);
    } else {
      var front := s[..|s| - 1];
      var x := s[|s| - 1];
      assert s == front + [x];
      DecodeEncode(front);
      EncodeSnoc(front, x);
      var e := Encode(front);
      if IsInfRun(|e.runs| - 1) == x.PosInf? {
        DecodeLengthenRun(e, x);
      } else {
        DecodeOpenRun(e, x);
      }
    }
  }

  /** The last element a canonical encoding decodes to, when its last run is not empty. */
  function Last(e: Encoding): R
    requires Canonical(e)
  {
    if IsInfRun(|e.runs| - 1) then PosInf else Fin(e.values[|e.values| - 1])
  }

  /** The values before the last element. */
  function ValuesBeforeLast(e: Encoding): (vs: seq<real>)
    requires Canonical(e) && e.runs[|e.runs| - 1] >= 1
    ensures Push(vs, Last(e)) == e.values
  {
    if IsInfRun(|e.runs| - 1) then e.values else e.values[..|e.values| - 1]
  }

  /** Every run after the first is non-empty. */
  predicate LaterRunsPositive(runs: seq<nat>)
  {
    forall j :: 1 <= j < |runs| ==> runs[j] >= 1
  }

  /** The runs with the last one shortened by one keep every later run non-empty. */
  lemma ShortenedRunsPositive(runs: seq<nat>)
    requires |runs| >= 1 && LaterRunsPositive(runs)
    requires runs[|runs| - 1] >= 2 || (|runs| == 1 && runs[0] >= 1)
    ensures LaterRunsPositive(runs[..|runs| - 1] + [runs[|runs| - 1] - 1])
  {
    var k := |runs| - 1;
    var q := runs[..k] + [runs[k] - 1];
    forall j | 1 <= j < |q|
      ensures q[j] >= 1
    {
      if j < k {
        assert q[j] == runs[j];
      }
    }
  }

  /** `e` without its last element, when that element is not alone in a later run. */
  function Shortened(e: Encoding): Encoding
    requires Canonical(e)
    requires e.runs[|e.runs| - 1] >= 2 || (|e.runs| == 1 && e.runs[0] >= 1)
  {
    Encoding(e.runs[..|e.runs| - 1] + [e.runs[|e.runs| - 1] - 1], ValuesBeforeLast(e))
  }

  /** Shortening lowers the total by one. */
  lemma ShortenedSum(e: Encoding)
    requires Canonical(e)
    requires e.runs[|e.runs| - 1] >= 2 || (|e.runs| == 1 && e.runs[0] >= 1)
    ensures Sum(Shortened(e).runs) + 1 == Sum(e.runs)
  {
    var k := |e.runs| - 1;
    SnocSums(e.runs[..k], e.runs[k] - 1);
  }

  /** Shortening keeps the finite runs in step with the values. */
  lemma ShortenedOddSum(e: Encoding)
    requires Canonical(e)
    requires e.runs[|e.runs| - 1] >= 2 || (|e.runs| == 1 && e.runs[0] >= 1)
    ensures OddSum(Shortened(e).runs) == |Shortened(e).values|
  {
    var k := |e.runs| - 1;
    var vs := ValuesBeforeLast(e);
    ValuesBeforeLastCount(e);
    OddSumShortened(e.runs[..k], e.runs[k], vs, e.values);
  }

  /** One value fewer before the last element exactly when that element is finite. */
  lemma ValuesBeforeLastCount(e: Encoding)
    requires Canonical(e) && e.runs[|e.runs| - 1] >= 1
    ensures |ValuesBeforeLast(e)| + (if IsInfRun(|e.runs| - 1) then 0 else 1) == |e.values|
  {
  }

  /** Shortening the last run by one drops one value from the count when that run is finite. */
  lemma OddSumShortened(front: seq<nat>, c: nat, vs: seq<real>, values: seq<real>)
    requires c >= 1 && |vs| + (if IsInfRun(|front|) then 0 else 1) == |values|
    requires OddSum(front) + (if IsInfRun(|front|) then 0 else c) == |values|
    ensures OddSum(front + [c - 1]) == |vs|
  {
    SnocSums(front, c - 1);
  }

  lemma ShortenedCanonical(e: Encoding)
    requires Canonical(e)
    requires e.runs[|e.runs| - 1] >= 2 || (|e.runs| == 1 && e.runs[0] >= 1)
    ensures Canonical(Shortened(e))
    ensures Sum(Shortened(e).runs) + 1 == Sum(e.runs)
  {
    ShortenedRunsPositive(e.runs);
    ShortenedSum(e);
    ShortenedOddSum(e);
  }

  /** Extending by an element of the last run's kind undoes a shortening of that run. */
  lemma ExtendShortened(front: seq<nat>, c: nat, vs: seq<real>, x: R)
    requires c >= 1 && IsInfRun(|front|) == x.PosInf?
    ensures Extend(Encoding(front + [c - 1], vs), x) == Encoding(front + [c], Push(vs, x))
  {
    var runs := front + [c - 1];
    assert runs[..|front|] == front;
  }

  /** Shortening a last run of two or more elements, or the only run. */
  lemma RetractShorten(e: Encoding) returns (p: Encoding)
    requires Canonical(e)
    requires e.runs[|e.runs| - 1] >= 2 || (|e.runs| == 1 && e.runs[0] >= 1)
    ensures Canonical(p) && Extend(p, Last(e)) == e
    ensures Sum(p.runs) + |p.runs| < Sum(e.runs) + |e.runs|
  {
    var k := |e.runs| - 1;
    p := Shortened(e);
    ShortenedCanonical(e);
    ExtendShortened(e.runs[..k], e.runs[k], ValuesBeforeLast(e), Last(e));
    SplitLast(e.runs);
  }

  /** `e` without its last element, when that element is alone in a later run. */
  function Dropped(e: Encoding): Encoding
    requires Canonical(e) && |e.runs| >= 2 && e.runs[|e.runs| - 1] == 1
  {
    Encoding(e.runs[..|e.runs| - 1], ValuesBeforeLast(e))
  }

  lemma DroppedSums(e: Encoding)
    requires Canonical(e) && |e.runs| >= 2 && e.runs[|e.runs| - 1] == 1
    ensures OddSum(Dropped(e).runs) == |Dropped(e).values|
    ensures Sum(Dropped(e).runs) + 1 == Sum(e.runs)
  {
  }

  lemma DroppedCanonical(e: Encoding)
    requires Canonical(e) && |e.runs| >= 2 && e.runs[|e.runs| - 1] == 1
    ensures Canonical(Dropped(e))
    ensures Sum(Dropped(e).runs) + 1 == Sum(e.runs)
  {
    var p := Dropped(e);
    forall j | 1 <= j < |p.runs|
      ensures p.runs[j] >= 1
    {
      assert p.runs[j] == e.runs[j];
    }
    DroppedSums(e);
  }

  /** Extending by an element of the other kind than the last run's opens a run of one. */
  lemma ExtendOpens(runs: seq<nat>, vs: seq<real>, x: R)
    requires |runs| >= 1 && IsInfRun(|runs| - 1) != x.PosInf?
    ensures Extend(Encoding(runs, vs), x) == Encoding(runs + [1], Push(vs, x))
  {
  }

  /** Dropping a last run of one element. */
  lemma RetractDrop(e: Encoding) returns (p: Encoding)
    requires Canonical(e) && |e.runs| >= 2 && e.runs[|e.runs| - 1] == 1
    ensures Canonical(p) && Extend(p, Last(e)) == e
    ensures Sum(p.runs) + |p.runs| < Sum(e.runs) + |e.runs|
  {
    var k := |e.runs| - 1;
    p := Dropped(e);
    DroppedCanonical(e);
    NextRunKind(k - 1);
    ExtendOpens(p.runs, p.values, Last(e));
    assert p.runs + [1] == e.runs;
  }

  /** A canonical encoding of a non-empty list is the encoding of a shorter one, extended by its last element. */
  lemma Retract(e: Encoding) returns (p: Encoding, x: R)
    requires Canonical(e) && e.runs[|e.runs| - 1] >= 1
    ensures Canonical(p) && Extend(p, x) == e
    ensures Sum(p.runs) + |p.runs| < Sum(e.runs) + |e.runs|
  {
    x := Last(e);
    if e.runs[|e.runs| - 1] >= 2 || |e.runs| == 1 {
      p := RetractShorten(e);
    } else {
      p := RetractDrop(e);
    }
  }

  /** Every canonical encoding is the encoding of what it decodes to: the encoding is unique. */
  lemma {:induction false} EncodeDecode(e: Encoding)
    requires Canonical(e)
    ensures Encode(Decode(e.runs, e.values)) == e
    decreases Sum(e.runs) + |e.runs|
  {
    if e.runs[|e.runs| - 1] == 0 {
      assert e.runs == [0];
      assert Kinds([0]) == Kinds([]) + Copies(true, 0);
    } else {
      var p, x := Retract(e);
      if IsInfRun(|p.runs| - 1) == x.PosInf? {
        DecodeLengthenRun(p, x);
      } else {
        DecodeOpenRun(p, x);
      }
      EncodeDecode(p);
      EncodeSnoc(Decode(p.runs, p.values), x);
    }
  }

  lemma EncodePrefix(s: seq<R>, i: nat)
    requires i < |s|
    ensures Encode(s[..i + 1]) == Extend(Encode(s[..i]), s[i])
  {
    assert s[..i + 1] == s[..i] + [s[i]];
    EncodeSnoc(s[..i], s[i]);
  }

  /** `Extend` on an encoding whose last run is still open, as the encoder's loop holds it. */
  lemma ExtendOpenRun(runs: seq<nat>, current: nat, values: seq<real>, x: R)
    ensures Extend(Encoding(runs + [current], values), x)
         == if IsInfRun(|runs|) == x.PosInf? then Encoding(runs + [current + 1], Push(values, x))
            else Encoding(runs + [current] + [1], Push(values, x))
  {
    assert (runs + [current])[..|runs|] == runs;
  }

  /**
   * The encoder's three self-checks: the runs cover the whole list, no run after the
   * first is empty, and the finite runs cover the values.
   */
  function SelfCheck(e: Encoding, length: nat): (r: Result<Encoding, EncodeError>)
    ensures r.Ok? <==> && Sum(e.runs) == length
                       && (forall j :: 1 <= j < |e.runs| ==> e.runs[j] >= 1)
                       && OddSum(e.runs) == |e.values|
    ensures r.Ok? ==> r.value == e
    ensures Sum(e.runs) != length ==> r == Err(RunSumMismatch(Sum(e.runs), length))
  {
    if Sum(e.runs) != length then Err(RunSumMismatch(Sum(e.runs), length))
    else if exists j :: 1 <= j < |e.runs| && e.runs[j] <= 0 then Err(NonPositiveRun)
    else if OddSum(e.runs) != |e.values| then Err(ValueCountMismatch(OddSum(e.runs), |e.values|))
    else Ok(e)
  }

  /**
   * `encode_floating_point_list`: one pass over `ranges`, closing a run whenever the
   * kind of value changes, then the three self-checks, which never fail.
   */
  method EncodeFloatingPointList(ranges: seq<R>) returns (r: Result<Encoding, EncodeError>)
    ensures r == Ok(Encode(ranges)) && Canonical(r.value)
    ensures Decode(r.value.runs, r.value.values) == ranges
  {
    var runs, values := EncodeRuns(ranges);
    SelfCheckPasses(ranges);
    DecodeEncode(ranges);
    r := SelfCheck(Encoding(runs, values), |ranges|);
  }

  /** The self-checks never raise on the encoding of a list. */
  lemma SelfCheckPasses(s: seq<R>)
    ensures SelfCheck(Encode(s), |s|) == Ok(Encode(s))
  {
    EncodeCoversList(s);
    EncodeCanonical(s);
  }

  /**
   * One pass of the encoder's loop, with the last run still open as `current`: an element
   * of the open run's kind lengthens it, one of the other kind closes it and opens a run of one.
   */
  lemma EncodeStep(s: seq<R>, i: nat, runs: seq<nat>, current: nat, values: seq<real>)
    requires i < |s| && Encode(s[..i]) == Encoding(runs + [current], values)
    ensures IsInfRun(|runs|) == s[i].PosInf? ==> Encode(s[..i + 1]) == Encoding(runs + [current + 1], Push(values, s[i]))
    ensures IsInfRun(|runs|) != s[i].PosInf? ==>
      && Encode(s[..i + 1]) == Encoding(runs + [current] + [1], Push(values, s[i]))
      && IsInfRun(|runs + [current]|) == s[i].PosInf?
  {
    EncodePrefix(s, i);
    ExtendOpenRun(runs, current, values, s[i]);
    NextRunKind(|runs|);
  }

  lemma EncodeWhole(s: seq<R>)
    ensures Encode(s[..|s|]) == Encode(s)
  {
    assert s[..|s|] == s;
  }

  /** The loop of `encode_floating_point_list`, with the last run closed after it. */
  method EncodeRuns(ranges: seq<R>) returns (runs: seq<nat>, values: seq<real>)
    ensures Encoding(runs, values) == Encode(ranges)
  {
    var lastWasInfinite := true;
    var currentRunLength: nat := 0;
    runs := [];
    values := [];
    for i := 0 to |ranges|
      invariant Encode(ranges[..i]) == Encoding(runs + [currentRunLength], values)
      invariant lastWasInfinite <==> IsInfRun(|runs|)
    {
      var x := ranges[i];
      EncodeStep(ranges, i, runs, currentRunLength, values);
      if x.PosInf? == lastWasInfinite {
        currentRunLength := currentRunLength + 1;
      } else {
        runs := runs + [currentRunLength];
        currentRunLength := 1;
        lastWasInfinite := x.PosInf?;
      }
      if !x.PosInf? {
        values := values + [x.v];
      }
    }
    EncodeWhole(ranges);
    runs := runs + [currentRunLength];
  }
}
