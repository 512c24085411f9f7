/** Flattening a sequence of sequences, the shape of every loop in the
    exporters that appends zero or more items per input. */
module Sequences {
  import opened Values

  /** The parts one after the other; built from the back, as a loop that
      appends each part in turn builds it. */
  function Flatten<T>(parts: seq<seq<T>>): seq<T> {
    if parts == [] then [] else Flatten(parts[..|parts| - 1]) + parts[|parts| - 1]
  }

  /** Flattening a prefix one part longer appends that part. */
  lemma FlattenStep<T>(parts: seq<seq<T>>, i: nat)
    requires i < |parts|
    ensures Flatten(parts[..i + 1]) == Flatten(parts[..i]) + parts[i]
  {
    assert parts[..i + 1][..i] == parts[..i];
  }

  lemma FlattenOne<T>(x: seq<T>)
    ensures Flatten([x]) == x
  {
    assert [x][..0] == [];
  }

  /** Flattening distributes over concatenation. */
  lemma {:induction false} FlattenAppend<T>(a: seq<seq<T>>, b: seq<seq<T>>)
    ensures Flatten(a + b) == Flatten(a) + Flatten(b)
    decreases |b|
  {
    if b == [] {
      assert a + b == a;
    } else {
      var c := b[..|b| - 1];
      assert (a + b)[..|a + b| - 1] == a + c;
      assert (a + b)[|a + b| - 1] == b[|b| - 1];
      FlattenAppend(a, c);
    }
  }

  /** Flattening splits wherever the parts are split. */
  lemma FlattenSplit<T>(parts: seq<seq<T>>, k: nat)
    requires k <= |parts|
    ensures Flatten(parts) == Flatten(parts[..k]) + Flatten(parts[k..])
  {
    assert parts == parts[..k] + parts[k..];
    FlattenAppend(parts[..k], parts[k..]);
  }

  /** Part `k` sits between the parts before it and the parts after it. */
  lemma FlattenAt<T>(parts: seq<seq<T>>, k: nat)
    requires k < |parts|
    ensures Flatten(parts) == Flatten(parts[..k]) + parts[k] + Flatten(parts[k + 1..])
  {
    var pre, post := Flatten(parts[..k]), Flatten(parts[k + 1..]);
    assert Flatten(parts) == Flatten(parts[..k + 1]) + post by { FlattenSplit(parts, k + 1); }
    assert Flatten(parts[..k + 1]) == pre + parts[k] by { FlattenStep(parts, k); }
    AppendAssoc(pre, parts[k], post);
  }

  /** Parts of at most `m` items flatten to at most `|parts| * m` items. */
  lemma {:induction false} FlattenBound<T>(parts: seq<seq<T>>, m: nat)
    requires forall i :: 0 <= i < |parts| ==> |parts[i]| <= m
    ensures |Flatten(parts)| <= |parts| * m
    decreases |parts|
  {
    if parts != [] {
      var n := |parts| - 1;
      FlattenBound(parts[..n], m);
      MulSucc(n, m);
    }
  }

  /** Parts of exactly `m` items flatten to `|parts| * m` items. */
  lemma {:induction false} FlattenLength<T>(parts: seq<seq<T>>, m: nat)
    requires forall k :: 0 <= k < |parts| ==> |parts[k]| == m
    ensures |Flatten(parts)| == |parts| * m
    decreases |parts|
  {
    if parts != [] {
      var n := |parts| - 1;
      FlattenLength(parts[..n], m);
      MulSucc(n, m);
    }
  }

  /** Parts of exactly `m` items: item `j` of part `i` lands at `i * m + j`. */
  lemma {:induction false} FlattenUniformAt<T>(parts: seq<seq<T>>, m: nat, i: nat, j: nat)
    requires forall k :: 0 <= k < |parts| ==> |parts[k]| == m
    requires i < |parts| && j < m
    ensures |Flatten(parts)| == |parts| * m
    ensures 0 <= i * m + j < |Flatten(parts)| && Flatten(parts)[i * m + j] == parts[i][j]
    decreases |parts|
  {
    var n := |parts| - 1;
    var a := Flatten(parts[..n]);
    assert Flatten(parts) == a + parts[n];
    FlattenLength(parts, m);
    FlattenLength(parts[..n], m);
    MulBound(i, n, m, j);
    if i < n {
      FlattenUniformAt(parts[..n], m, i, j);
      assert parts[..n][i] == parts[i];
    }
  }

  /** Parts of one item each flatten to those items. */
  lemma FlattenSingletons<T>(parts: seq<seq<T>>)
    requires forall i :: 0 <= i < |parts| ==> |parts[i]| == 1
    ensures |Flatten(parts)| == |parts|
    ensures forall i :: 0 <= i < |parts| ==> Flatten(parts)[i] == parts[i][0]
  {
    if parts != [] {
      FlattenLength(parts, 1);
    }
    forall i | 0 <= i < |parts| ensures Flatten(parts)[i] == parts[i][0] {
      FlattenUniformAt(parts, 1, i, 0);
      assert i * 1 + 0 == i;
    }
  }

  /** Appending a part to a run that follows a fixed head. */
  lemma AppendAssoc<T>(a: seq<T>, b: seq<T>, c: seq<T>)
    ensures a + b + c == a + (b + c)
  {
  }

  /** Where the parts of a line list `[h] + a + b + c` sit. */
  lemma PartsAt<T>(h: T, a: seq<T>, b: seq<T>, c: seq<T>)
    ensures var l := [h] + a + b + c;
      && |l| == 1 + |a| + |b| + |c| && l[0] == h
      && (forall k :: 0 <= k < |a| ==> l[1 + k] == a[k])
      && (forall k :: 0 <= k < |b| ==> l[1 + |a| + k] == b[k])
      && (forall k :: 0 <= k < |c| ==> l[1 + |a| + |b| + k] == c[k])
  {
  }

  /** `i * m + j` for `i <= n` and `j < m` lies before `(n + 1) * m`, before
      `n * m` when `i < n`, and at `n * m + j` when `i == n`. */
  lemma MulSucc(n: nat, m: nat)
    ensures (n + 1) * m == n * m + m
  {
  }

  lemma MulBound(i: nat, n: nat, m: nat, j: nat)
    requires i <= n && j < m
    ensures 0 <= i * m + j < n * m + m
    ensures i < n ==> i * m + j < n * m
    ensures i == n ==> i * m + j == n * m + j
  {
    assert 0 <= i * m;
    if i < n {
      assert (i + 1) * m <= n * m;
    }
  }

  // ---------------------------------------------------------------------------
  // Loops that append one result per item and stop at the first error

  /** The parts of `rs` concatenated, or the first error among them. */
  function Collect<T>(rs: seq<Result<seq<T>, string>>): Result<seq<T>, string> {
    if rs == [] then Ok([])
    else
      match Collect(rs[..|rs| - 1])
      case Err(e) => Err(e)
      case Ok(done) =>
        match rs[|rs| - 1]
        case Err(e) => Err(e)
        case Ok(part) => Ok(done + part)
  }

  /** Collecting a prefix one result longer. */
  lemma CollectStep<T>(rs: seq<Result<seq<T>, string>>, i: nat)
    requires i < |rs|
    ensures Collect(rs[..i + 1]) ==
      match Collect(rs[..i])
      case Err(e) => Err(e)
      case Ok(done) => (match rs[i] case Err(e) => Err(e) case Ok(part) => Ok(done + part))
  {
    assert rs[..i + 1][..i] == rs[..i];
  }

  /** Once a prefix has failed, the whole fails with the same error. */
  lemma {:induction false} CollectSticky<T>(rs: seq<Result<seq<T>, string>>, i: nat)
    requires i <= |rs| && Collect(rs[..i]).Err?
    ensures Collect(rs) == Collect(rs[..i])
    decreases |rs| - i
  {
    if i == |rs| {
      assert rs[..i] == rs;
    } else {
      CollectStep(rs, i);
      CollectSticky(rs, i + 1);
    }
  }

  /** Without errors, the parts one after the other. */
  lemma {:induction false} CollectAllOk<T>(rs: seq<Result<seq<T>, string>>)
    requires forall i :: 0 <= i < |rs| ==> rs[i].Ok?
    ensures Collect(rs) == Ok(Flatten(seq(|rs|, i requires 0 <= i < |rs| => rs[i].value)))
    decreases |rs|
  {
    if rs != [] {
      var n := |rs| - 1;
      CollectAllOk(rs[..n]);
      var parts := seq(|rs|, i requires 0 <= i < |rs| => rs[i].value);
      assert parts[..n] == seq(n, i requires 0 <= i < n => rs[..n][i].value);
    }
  }

  /** The first error, when every result before it is fine. */
  lemma {:induction false} CollectFirstErr<T>(rs: seq<Result<seq<T>, string>>, k: nat)
    requires k < |rs| && rs[k].Err?
    requires forall i :: 0 <= i < k ==> rs[i].Ok?
    ensures Collect(rs) == Err(rs[k].error)
  {
    CollectAllOk(rs[..k]);
    CollectStep(rs, k);
    CollectSticky(rs, k + 1);
  }
}
