/** The order-free table digest and the manifests it is compared through. */
module RowDigest {
  import opened CopyModel
  import opened CopyProofs

  type Positive = x: nat | x > 0 witness 1

  const MODULUS: Positive := 0x1_0000000000000000_0000000000000000_0000000000000000_0000000000000000

  // SHA-256 of the normalized JSON of one row, read as a number.
  type Hash = Row -> nat

  function Wrap(x: nat): (r: nat)
    ensures r < MODULUS
  {
    x % MODULUS
  }

  function Plus(a: nat, b: nat): nat { Wrap(a + b) }

  function Aggregate(hash: Hash, rows: seq<Row>): (r: nat)
    ensures r < MODULUS
  {
    if rows == [] then 0 else Plus(Aggregate(hash, rows[..|rows| - 1]), hash(rows[|rows| - 1]))
  }

  /** Add the rows up batch by batch, as the cursor delivers them. */
  method DigestRows(hash: Hash, rows: seq<Row>, batchSize: nat) returns (count: nat, aggregate: nat)
    requires batchSize > 0
    ensures count == |rows| && aggregate == Aggregate(hash, rows)
  {
    count, aggregate := 0, 0;
    while count < |rows|
      invariant count <= |rows| && aggregate == Aggregate(hash, rows[..count])
    {
      var batch := rows[count..if count + batchSize <= |rows| then count + batchSize else |rows|];
      ghost var from := count;
      for k := 0 to |batch|
        invariant count == from + k && aggregate == Aggregate(hash, rows[..count])
      {
        assert rows[..count + 1][..count] == rows[..count];
        aggregate := (aggregate + hash(batch[k])) % MODULUS;
        count := count + 1;
      }
    }
    assert rows[..|rows|] == rows;
  }

  // ---------------------------------------------------------------- the digest does not see order or batches

  lemma PlusLaws(a: nat, b: nat, c: nat)
    ensures Plus(a, b) == Plus(b, a)
    ensures Plus(Plus(a, b), c) == Plus(a, Plus(b, c))
  {
    hide Wrap;
    WrapAdd(a + b, c);
    WrapAdd(b + c, a);
  }

  lemma WrapAdd(a: nat, b: nat)
    ensures Wrap(Wrap(a) + b) == Wrap(a + b)
  {
    ModAdd(a, b, MODULUS);
  }

  lemma MulSign(d: int, m: nat)
    ensures d >= 1 ==> d * m >= m
    ensures d <= -1 ==> -(d * m) >= m
  {
    if d >= 1 {
      assert d * m == (d - 1) * m + m && (d - 1) * m >= 0;
    } else if d <= -1 {
      assert -(d * m) == (-d - 1) * m + m && (-d - 1) * m >= 0;
    }
  }

  lemma ModAdd(a: nat, b: nat, m: nat)
    requires m > 0
    ensures (a % m + b) % m == (a + b) % m
  {
    var x := a % m + b;
    var d := a / m + x / m - (a + b) / m;
    assert (a + b) == (a / m + x / m) * m + x % m;
    assert (a + b) == ((a + b) / m) * m + (a + b) % m;
    assert d * m == (a + b) % m - x % m;
    MulSign(d, m);
  }

  /** The digest of a concatenation is the sum of the digests modulo 2^256. */
  lemma {:induction false} DigestAdds(hash: Hash, a: seq<Row>, b: seq<Row>)
    ensures Aggregate(hash, a + b) == Plus(Aggregate(hash, a), Aggregate(hash, b))
  {
    hide Plus;
    if b == [] {
      assert a + b == a;
      PlusZero(hash, a);
    } else {
      var n := |b| - 1;
      DigestAdds(hash, a, b[..n]);
      assert (a + b)[..|a + b| - 1] == a + b[..n];
      LastRow(hash, a + b);
      LastRow(hash, b);
      PlusLaws(Aggregate(hash, a), Aggregate(hash, b[..n]), hash(b[n]));
    }
  }

  lemma PlusZero(hash: Hash, a: seq<Row>)
    ensures Plus(Aggregate(hash, a), 0) == Aggregate(hash, a)
  {
    hide Aggregate;
  }

  lemma LastRow(hash: Hash, rows: seq<Row>)
    requires rows != []
    ensures Aggregate(hash, rows) == Plus(Aggregate(hash, rows[..|rows| - 1]), hash(rows[|rows| - 1]))
  {
  }

  lemma DigestSplits(hash: Hash, a: seq<Row>, x: Row, b: seq<Row>)
    ensures Aggregate(hash, a + [x] + b) == Plus(Aggregate(hash, a + b), hash(x))
  {
    hide Plus, Aggregate;
    var s, t, h := Aggregate(hash, a), Aggregate(hash, b), hash(x);
    DigestAdds(hash, a + [x], b);
    LastRow(hash, a + [x]);
    assert (a + [x])[..|a|] == a;
    DigestAdds(hash, a, b);
    PlusLaws(s, h, t);
    PlusLaws(s, t, h);
    PlusLaws(h, t, 0);
  }

  lemma TakeOut(a: seq<Row>, b: seq<Row>, i: nat)
    requires multiset(a) == multiset(b) && a != [] && i < |b| && b[i] == a[|a| - 1]
    ensures multiset(a[..|a| - 1]) == multiset(b[..i] + b[i + 1..])
  {
    var x := b[i];
    assert a == a[..|a| - 1] + [x];
    assert b == b[..i] + [x] + b[i + 1..];
    assert multiset(a) == multiset(a[..|a| - 1]) + multiset{x};
    assert multiset(b) == multiset(b[..i] + b[i + 1..]) + multiset{x};
    assert multiset(a[..|a| - 1]) == multiset(a) - multiset{x};
    assert multiset(b[..i] + b[i + 1..]) == multiset(b) - multiset{x};
  }

  /** Equal multisets of rows have equal digests, so neither row order nor fetch size matters. */
  lemma {:induction false} DigestIsOrderFree(hash: Hash, a: seq<Row>, b: seq<Row>)
    requires multiset(a) == multiset(b)
    ensures |a| == |b| && Aggregate(hash, a) == Aggregate(hash, b)
    decreases |a|
  {
    hide Aggregate, Plus;
    assert |a| == |multiset(a)| == |multiset(b)| == |b|;
    if a == [] {
      assert b == [];
    } else {
      var n := |a| - 1;
      assert a[n] in multiset(a);
      var i :| 0 <= i < |b| && b[i] == a[n];
      TakeOut(a, b, i);
      DigestIsOrderFree(hash, a[..n], b[..i] + b[i + 1..]);
      DigestSplits(hash, b[..i], a[n], b[i + 1..]);
      assert b == b[..i] + [a[n]] + b[i + 1..];
      LastRow(hash, a);
    }
  }

  // ---------------------------------------------------------------- manifests

  datatype Summary = Counted(count: nat, checksum: nat) | Missing

  type Manifest = map<string, Summary>

  function TargetManifest(hash: Hash, db: Tables, order: seq<string>): Manifest {
    map t | t in order :: if t in db then Counted(|db[t]|, Aggregate(hash, db[t])) else Missing
  }

  function SourceManifest(hash: Hash, src: map<string, Source>, order: seq<string>): Manifest {
    map t | t in order ::
      if t in src then Counted(|src[t].rows|, Aggregate(hash, MaterializedRows(t, src[t].rows))) else Missing
  }

  predicate Differs(source: Manifest, target: Manifest) {
    exists t :: t in source && (t !in target || target[t] != source[t])
  }
}
