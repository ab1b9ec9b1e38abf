/**
  The dynamically typed values that the pipeline keeps in its per-track
  feature dictionaries, insertion-ordered dictionaries of such records, and
  the few string operations of Python that the core relies on.
 */
module PyValues {

  /** A value stored under a feature name in a track's dictionary. */
  datatype Value =
    | IntV(i: int)                // a Python int (tempo, sampling rate)
    | FloatV(r: real)             // a Python or numpy float (rounding, NaN and infinities are not modelled)
    | StrV(s: string)             // a Python str
    | FloatListV(xs: seq<real>)   // a Python list of floats
    | TagsV(tags: set<string>)    // a Python set of strings (the function tags)
    | ArrayV(samples: seq<real>)  // a numpy array (the decoded waveform)
    | NoneV                       // Python's None

  /** One track's feature dictionary. */
  type Record = map<string, Value>

  /** `isinstance(v, (int, float, str))` */
  predicate IsScalar(v: Value) {
    v.IntV? || v.FloatV? || v.StrV?
  }

  /** A value that Python compares and averages as a number. */
  predicate IsNumber(v: Value) {
    v.IntV? || v.FloatV?
  }

  function AsReal(v: Value): real
    requires IsNumber(v)
  {
    if v.IntV? then v.i as real else v.r
  }

  /**
    A Python dict keyed by track name: the keys in insertion order, and the
    entry of each key.
   */
  datatype Table = Table(order: seq<string>, rows: map<string, Record>) {

    ghost predicate WellFormed() {
      && Distinct(order)
      && (forall n :: n in rows <==> n in order)
    }
  }

  ghost predicate Distinct<T>(s: seq<T>) {
    forall i, j :: 0 <= i < j < |s| ==> s[i] != s[j]
  }

  /** The position of `x` in a sequence without repetitions. */
  function IndexOf<T(==)>(s: seq<T>, x: T): (k: nat)
    requires x in s
    ensures k < |s| && s[k] == x
    ensures forall j :: 0 <= j < k ==> s[j] != x
  {
    if s[0] == x then 0 else 1 + IndexOf(s[1..], x)
  }

  lemma IndexOfDistinct<T>(s: seq<T>, k: nat)
    requires Distinct(s) && k < |s|
    ensures IndexOf(s, s[k]) == k
  {
  }

  /** `c.lower()` for the ASCII letters. */
  function LowerChar(c: char): char {
    if 'A' <= c <= 'Z' then (c as int + 32) as char else c
  }

  /** `s.lower()`, restricted to ASCII case folding. */
  function Lower(s: string): string {
    if s == [] then [] else [LowerChar(s[0])] + Lower(s[1..])
  }

  predicate StartsWith(s: string, prefix: string) {
    |prefix| <= |s| && s[..|prefix|] == prefix
  }

  predicate EndsWith(s: string, suffix: string) {
    |suffix| <= |s| && s[|s| - |suffix|..] == suffix
  }

  /** Python's `sub in s` on strings. */
  predicate Contains(s: string, sub: string)
    decreases |s|
  {
    StartsWith(s, sub) || (|s| > 0 && Contains(s[1..], sub))
  }

  /** `sub` occurs in `s` starting at position `i`. */
  predicate OccursAt(s: string, sub: string, i: int) {
    0 <= i <= |s| - |sub| && s[i..i + |sub|] == sub
  }

  /** `sub in s` holds exactly when `sub` occurs in `s` at some position. */
  lemma {:induction false} ContainsIffOccurs(s: string, sub: string)
    ensures Contains(s, sub) <==> exists i :: OccursAt(s, sub, i)
    decreases |s|
  {
    if StartsWith(s, sub) {
      assert OccursAt(s, sub, 0);
    } else if |s| > 0 {
      ContainsIffOccurs(s[1..], sub);
      if Contains(s[1..], sub) {
        var i :| OccursAt(s[1..], sub, i);
        assert s[i + 1..i + 1 + |sub|] == s[1..][i..i + |sub|];
        assert OccursAt(s, sub, i + 1);
      }
      if exists i :: OccursAt(s, sub, i) {
        var i :| OccursAt(s, sub, i);
        assert i != 0;
        assert s[1..][i - 1..i - 1 + |sub|] == s[i..i + |sub|];
        assert OccursAt(s[1..], sub, i - 1);
      }
    } else {
      assert forall i :: !OccursAt(s, sub, i);
    }
  }

  function DigitChar(d: nat): char
    requires d < 10
  {
    "0123456789"[d]
  }

  function Digits(n: nat): string
    decreases n
  {
    if n < 10 then [DigitChar(n)] else Digits(n / 10) + [DigitChar(n % 10)]
  }

  /** `str(i)` for a Python int. */
  function Decimal(i: int): string {
    if i < 0 then "-" + Digits(-i) else Digits(i)
  }

  /**
    `str(v)` inside an f-string: a string is inserted as it is and an int in
    decimal; the text of every other value (floats, sets, lists) is `show(v)`.
   */
  function Str(v: Value, show: Value -> string): string {
    match v
    case StrV(s) => s
    case IntV(i) => Decimal(i)
    case _ => show(v)
  }

  /** An f-string: the concatenation of its literal and replacement pieces, in order. */
  function Join(pieces: seq<string>): string {
    if pieces == [] then [] else pieces[0] + Join(pieces[1..])
  }

  /** Where piece `k` starts in the joined string. */
  function PieceStart(pieces: seq<string>, k: nat): nat
    requires k <= |pieces|
  {
    |Join(pieces[..k])|
  }

  lemma {:induction false} JoinAppend(ps: seq<string>, qs: seq<string>)
    ensures Join(ps + qs) == Join(ps) + Join(qs)
  {
    if ps == [] {
      assert ps + qs == qs;
    } else {
      assert (ps + qs)[1..] == ps[1..] + qs;
      JoinAppend(ps[1..], qs);
    }
  }

  /** Piece `k` occurs in the joined string where the pieces before it end. */
  lemma JoinPieceAt(pieces: seq<string>, k: nat)
    requires k < |pieces|
    ensures OccursAt(Join(pieces), pieces[k], PieceStart(pieces, k))
    ensures PieceStart(pieces, k + 1) == PieceStart(pieces, k) + |pieces[k]|
  {
    assert pieces == pieces[..k] + pieces[k..];
    JoinAppend(pieces[..k], pieces[k..]);
    assert pieces[..k + 1] == pieces[..k] + [pieces[k]];
    JoinAppend(pieces[..k], [pieces[k]]);
    assert Join([pieces[k]]) == pieces[k] + Join([]);
  }

  /** The joined string starts with the join of the first `k` pieces. */
  lemma JoinStartsWith(pieces: seq<string>, k: nat)
    requires k <= |pieces|
    ensures StartsWith(Join(pieces), Join(pieces[..k]))
  {
    assert pieces == pieces[..k] + pieces[k..];
    JoinAppend(pieces[..k], pieces[k..]);
  }

  /** The joined string ends with its last piece. */
  lemma JoinEndsWith(pieces: seq<string>)
    requires |pieces| > 0
    ensures EndsWith(Join(pieces), pieces[|pieces| - 1])
  {
    var k := |pieces| - 1;
    JoinPieceAt(pieces, k);
    assert pieces[..k + 1] == pieces;
  }

  /** Two joins whose pieces agree up to piece `k`, and differ at offset `j` of piece `k`, differ. */
  lemma JoinDiffersAt(xs: seq<string>, ys: seq<string>, k: nat, j: nat)
    requires k < |xs| && k < |ys| && xs[..k] == ys[..k]
    requires j < |xs[k]| && j < |ys[k]| && xs[k][j] != ys[k][j]
    ensures Join(xs) != Join(ys)
  {
    JoinPieceAt(xs, k);
    JoinPieceAt(ys, k);
    var p := PieceStart(xs, k);
    assert Join(xs)[p + j] == xs[k][j] by {
      assert Join(xs)[p..p + |xs[k]|] == xs[k];
    }
    assert Join(ys)[p + j] == ys[k][j] by {
      assert Join(ys)[p..p + |ys[k]|] == ys[k];
    }
  }

  /** Piece `j` starts no earlier than the end of piece `i + 1`, for `i + 1 < j`. */
  lemma PieceGap(pieces: seq<string>, i: nat, j: nat)
    requires i + 1 < j <= |pieces|
    ensures PieceStart(pieces, i) + |pieces[i]| + |pieces[i + 1]| <= PieceStart(pieces, j)
  {
    JoinPieceAt(pieces, i);
    JoinPieceAt(pieces, i + 1);
    assert pieces[..j] == pieces[..i + 2] + pieces[i + 2..j];
    JoinAppend(pieces[..i + 2], pieces[i + 2..j]);
  }

  /** The joined string ends with the join of the pieces from `k` on. */
  lemma JoinEndsWithTail(pieces: seq<string>, k: nat)
    requires k <= |pieces|
    ensures EndsWith(Join(pieces), Join(pieces[k..]))
  {
    assert pieces == pieces[..k] + pieces[k..];
    JoinAppend(pieces[..k], pieces[k..]);
  }

  /** `[key(x) for x in xs]` */
  function KeysOf<T>(xs: seq<T>, key: T -> string): (keys: seq<string>)
    ensures |keys| == |xs|
  {
    seq(|xs|, i requires 0 <= i < |xs| => key(xs[i]))
  }

  /** `[key(x) for x in xs if keep(x)]` */
  function KeysWhere<T>(xs: seq<T>, keep: T -> bool, key: T -> string): seq<string> {
    if xs == [] then []
    else KeysWhere(xs[..|xs| - 1], keep, key) + (if keep(xs[|xs| - 1]) then [key(xs[|xs| - 1])] else [])
  }

  lemma KeysWhereSnoc<T>(xs: seq<T>, x: T, keep: T -> bool, key: T -> string)
    ensures KeysWhere(xs + [x], keep, key) == KeysWhere(xs, keep, key) + (if keep(x) then [key(x)] else [])
  {
    assert (xs + [x])[..|xs|] == xs;
  }

  lemma {:induction false} KeysWhereAppend<T>(xs: seq<T>, ys: seq<T>, keep: T -> bool, key: T -> string)
    ensures KeysWhere(xs + ys, keep, key) == KeysWhere(xs, keep, key) + KeysWhere(ys, keep, key)
    decreases |ys|
  {
    if ys == [] {
      assert xs + ys == xs;
    } else {
      var init := ys[..|ys| - 1];
      assert (xs + ys)[..|xs + ys| - 1] == xs + init;
      KeysWhereAppend(xs, init, keep, key);
    }
  }

  /** Filtering a list whose middle part is dropped and whose outer parts are kept. */
  lemma {:induction false} KeysWhereDropsMiddle<T>(head: seq<T>, middle: seq<T>, tail: seq<T>, keep: T -> bool, key: T -> string)
    requires forall i :: 0 <= i < |head| ==> keep(head[i])
    requires forall i :: 0 <= i < |middle| ==> !keep(middle[i])
    requires forall i :: 0 <= i < |tail| ==> keep(tail[i])
    ensures KeysWhere(head + middle + tail, keep, key) == KeysOf(head, key) + KeysOf(tail, key)
  {
    KeysWhereAppend(head + middle, tail, keep, key);
    KeysWhereAppend(head, middle, keep, key);
    KeysWhereNone(middle, keep, key);
    KeysWhereAll(head, keep, key);
    KeysWhereAll(tail, keep, key);
  }

  /**
    The loop that fills a dict from a list: for each `x` of `xs` in order,
    `d[key(x)] = val(x)` when `keep(x)`. `order` is the order in which the
    keys are inserted.
   */
  method FillWhere<T>(xs: seq<T>, keep: T -> bool, key: T -> string, val: T -> string)
    returns (d: map<string, string>, order: seq<string>)
    requires forall x, y :: key(x) == key(y) ==> x == y
    ensures forall x :: key(x) in d <==> x in xs && keep(x)
    ensures forall x :: x in xs && keep(x) ==> d[key(x)] == val(x)
    ensures forall k :: k in d ==> exists x :: key(x) == k
    ensures order == KeysWhere(xs, keep, key)
    ensures forall k :: k in order <==> k in d
  {
    d, order := map[], [];
    for i := 0 to |xs|
      invariant forall x, y :: key(x) == key(y) ==> x == y
      invariant forall x :: key(x) in d <==> x in xs[..i] && keep(x)
      invariant forall x :: x in xs[..i] && keep(x) ==> d[key(x)] == val(x)
      invariant forall k :: k in d ==> exists x :: key(x) == k
      invariant order == KeysWhere(xs[..i], keep, key)
      invariant forall k :: k in order <==> k in d
    {
      var x := xs[i];
      assert xs[..i + 1] == xs[..i] + [x];
      KeysWhereSnoc(xs[..i], x, keep, key);
      ghost var d0 := d;
      if keep(x) {
        d := d[key(x) := val(x)];
        order := order + [key(x)];
      }
      forall y
        ensures key(y) in d <==> y in xs[..i + 1] && keep(y)
      {
        assert y in xs[..i + 1] <==> y in xs[..i] || y == x;
        assert key(y) in d <==> key(y) in d0 || (keep(x) && key(y) == key(x));
      }
    }
    assert xs[..|xs|] == xs;
  }

  /** When every element is kept, the filter keeps them all. */
  lemma {:induction false} KeysWhereAll<T>(xs: seq<T>, keep: T -> bool, key: T -> string)
    requires forall i :: 0 <= i < |xs| ==> keep(xs[i])
    ensures KeysWhere(xs, keep, key) == KeysOf(xs, key)
    decreases |xs|
  {
    if xs != [] {
      var init := xs[..|xs| - 1];
      KeysWhereAll(init, keep, key);
      assert KeysOf(xs, key) == KeysOf(init, key) + [key(xs[|xs| - 1])];
    }
  }

  /** When no element is kept, the filter is empty. */
  lemma {:induction false} KeysWhereNone<T>(xs: seq<T>, keep: T -> bool, key: T -> string)
    requires forall i :: 0 <= i < |xs| ==> !keep(xs[i])
    ensures KeysWhere(xs, keep, key) == []
    decreases |xs|
  {
    if xs != [] {
      KeysWhereNone(xs[..|xs| - 1], keep, key);
    }
  }
}
