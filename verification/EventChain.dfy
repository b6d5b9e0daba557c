/** The hash chain over one case's events: what `verify_chain` accepts, and what acceptance is
    worth. The digest and the canonical encoding are arbitrary functions, so every statement is
    of the form "the histories agree, or here are two inputs that collide". */
module EventChain {
  import opened Common

  /** A SHA-256 digest in hexadecimal: always 64 characters. */
  type Digest = d: string | |d| == 64 witness "0000000000000000000000000000000000000000000000000000000000000000"

  function Zeros(n: nat): (s: string)
    ensures |s| == n && forall i :: 0 <= i < n ==> s[i] == '0'
  {
    if n == 0 then "" else "0" + Zeros(n - 1)
  }

  /** The previous hash of a first row. */
  const GENESIS: Digest := Zeros(64)

  /** The two uninterpreted primitives: the digest of a text and the canonical encoding of a body. */
  datatype Codec<!T> = Codec(sha: string -> Digest, canonical: T -> string)

  /** A stored event text, as it parses: an object with the keys kind, at and detail (the body) and
      whatever other keys it carries, or something that lacks one of the three. */
  datatype Stored<+T> = Complete(body: T, extra: map<string, string>) | Incomplete(text: string)

  datatype Row<+T> = Row(event: Stored<T>, prev: Digest, hash: Digest)

  function Link<T>(c: Codec<T>, prev: Digest, body: T): Digest {
    c.sha(prev + c.canonical(body))
  }

  function PrevOf<T>(rows: seq<Row<T>>, i: nat): Digest
    requires i <= |rows|
  {
    if i == 0 then GENESIS else rows[i - 1].hash
  }

  function FinalHash<T>(rows: seq<Row<T>>): Digest { PrevOf(rows, |rows|) }

  predicate RowLinks<T>(c: Codec<T>, rows: seq<Row<T>>, i: nat)
    requires i < |rows|
  {
    && rows[i].event.Complete?
    && rows[i].prev == PrevOf(rows, i)
    && rows[i].hash == Link(c, PrevOf(rows, i), rows[i].event.body)
  }

  /** Every row names its predecessor's hash and carries the digest of that hash and its body. */
  ghost predicate Chained<T>(c: Codec<T>, rows: seq<Row<T>>) {
    forall i :: 0 <= i < |rows| ==> RowLinks(c, rows, i)
  }

  /** `verify_chain`: walk the rows in order, carrying the previous hash. */
  method VerifyChain<T>(c: Codec<T>, rows: seq<Row<T>>) returns (valid: bool)
    ensures valid <==> Chained(c, rows)
  {
    var previous: Digest := GENESIS;
    for i := 0 to |rows|
      invariant previous == PrevOf(rows, i)
      invariant forall j :: 0 <= j < i ==> RowLinks(c, rows, j)
    {
      if !rows[i].event.Complete? { assert !RowLinks(c, rows, i); return false; }
      if rows[i].prev != previous || rows[i].hash != c.sha(previous + c.canonical(rows[i].event.body)) {
        assert !RowLinks(c, rows, i);
        return false;
      }
      previous := rows[i].hash;
    }
    return true;
  }

  /** Evidence that a primitive is broken. */
  datatype Breach<+T> =
    | NoBreach
    | Collision(x: string, y: string)   // two texts with one digest
    | Preimage(x: string)               // a text whose digest is the all-zero genesis
    | Clash(b1: T, b2: T)               // two bodies with one canonical encoding

  predicate Real<T(==)>(c: Codec<T>, w: Breach<T>) {
    match w
    case NoBreach => false
    case Collision(x, y) => x != y && c.sha(x) == c.sha(y)
    case Preimage(x) => c.sha(x) == GENESIS
    case Clash(b1, b2) => b1 != b2 && c.canonical(b1) == c.canonical(b2)
  }

  /** Compare two chains from their ends and stop at the first sign of a broken primitive. */
  function FindBreach<T(==)>(c: Codec<T>, a: seq<Row<T>>, b: seq<Row<T>>): Breach<T>
    decreases |a| + |b|
  {
    if a == [] && b == [] then NoBreach
    else
      var ra, rb := if a == [] then None else Some(a[|a| - 1]), if b == [] then None else Some(b[|b| - 1]);
      match (ra, rb)
      case (Some(x), Some(y)) =>
        if x.event.Incomplete? || y.event.Incomplete? then NoBreach
        else
          var s, t := x.prev + c.canonical(x.event.body), y.prev + c.canonical(y.event.body);
          if s != t then Collision(s, t)
          else if x.event.body != y.event.body then Clash(x.event.body, y.event.body)
          else FindBreach(c, a[..|a| - 1], b[..|b| - 1])
      case (Some(x), None) => if x.event.Complete? then Preimage(x.prev + c.canonical(x.event.body)) else NoBreach
      case (None, Some(y)) => if y.event.Complete? then Preimage(y.prev + c.canonical(y.event.body)) else NoBreach
      case (None, None) => NoBreach
  }

  function BodyOf<T>(event: Stored<T>): Option<T> {
    if event.Complete? then Some(event.body) else None
  }

  /** The history a chain records: the bodies of its rows, in order. */
  ghost function Bodies<T>(rows: seq<Row<T>>): (bs: seq<Option<T>>)
    ensures |bs| == |rows| && forall i :: 0 <= i < |rows| ==> bs[i] == BodyOf(rows[i].event)
  {
    seq(|rows|, i requires 0 <= i < |rows| => BodyOf(rows[i].event))
  }

  lemma ChainedPrefix<T>(c: Codec<T>, rows: seq<Row<T>>, n: nat)
    requires Chained(c, rows) && n <= |rows|
    ensures Chained(c, rows[..n])
    ensures FinalHash(rows[..n]) == PrevOf(rows, n)
  {
    forall i | 0 <= i < n ensures RowLinks(c, rows[..n], i) { assert RowLinks(c, rows, i); }
  }

  /** What the last row of an accepted chain is, and that the rest is a chain. */
  lemma LastRow<T>(c: Codec<T>, rows: seq<Row<T>>)
    requires Chained(c, rows) && rows != []
    ensures var front, x := rows[..|rows| - 1], rows[|rows| - 1];
            && Chained(c, front) && x.event.Complete? && x.prev == FinalHash(front)
            && FinalHash(rows) == x.hash == c.sha(x.prev + c.canonical(x.event.body))
            && Bodies(rows) == Bodies(front) + [Some(x.event.body)]
  {
    ChainedPrefix(c, rows, |rows| - 1);
    assert RowLinks(c, rows, |rows| - 1);
  }

  /** A digest ends where its 64 characters do. */
  lemma SameText(p: Digest, x: string, q: Digest, y: string)
    requires p + x == q + y
    ensures p == q && x == y
  {
    assert p == (p + x)[..64] && q == (q + y)[..64];
    assert x == (p + x)[64..] && y == (q + y)[64..];
  }

  /** Two accepted chains with the same final hash record the same history, or `FindBreach`
      computes a collision, a genesis preimage or an encoding clash. */
  lemma {:induction false} SameFinalHashSameHistory<T>(c: Codec<T>, a: seq<Row<T>>, b: seq<Row<T>>)
    requires Chained(c, a) && Chained(c, b)
    requires FinalHash(a) == FinalHash(b)
    ensures Real(c, FindBreach(c, a, b)) || (FindBreach(c, a, b) == NoBreach && Bodies(a) == Bodies(b))
    decreases |a|
  {
    hide Chained, Bodies;
    if a != [] { LastRow(c, a); }
    if b != [] { LastRow(c, b); }
    if a != [] && b != [] {
      var x, y := a[|a| - 1], b[|b| - 1];
      if x.prev + c.canonical(x.event.body) == y.prev + c.canonical(y.event.body) {
        SameText(x.prev, c.canonical(x.event.body), y.prev, c.canonical(y.event.body));
        hide FinalHash;
        if x.event.body == y.event.body { SameFinalHashSameHistory(c, a[..|a| - 1], b[..|b| - 1]); }
      }
    } else if a == [] && b == [] {
      assert a == b;
    }
  }

  /** Replacing the event text of one row of an accepted chain leaves it accepted only if the new
      text has the same kind, time and detail, or a primitive is broken. */
  lemma RewrittenEventIsCaught<T>(c: Codec<T>, rows: seq<Row<T>>, i: nat, event: Stored<T>)
    requires Chained(c, rows) && i < |rows|
    ensures var edited := rows[i := rows[i].(event := event)];
            Chained(c, edited) ==>
              event.Complete? && (BodyOf(event) == BodyOf(rows[i].event) || Real(c, FindBreach(c, rows, edited)))
  {
    var edited := rows[i := rows[i].(event := event)];
    if Chained(c, edited) {
      assert RowLinks(c, edited, i);
      SameFinalHashSameHistory(c, rows, edited);
      if !Real(c, FindBreach(c, rows, edited)) {
        assert Bodies(rows)[i] == Bodies(edited)[i];
      }
    }
  }

  /** The limit of that promise: keys other than kind, at and detail are not covered, so rewriting
      them is accepted whatever the digest is. */
  lemma ExtraKeysAreNotCovered<T>(c: Codec<T>, rows: seq<Row<T>>, i: nat, extra: map<string, string>)
    requires Chained(c, rows) && i < |rows| && rows[i].event.Complete?
    ensures Chained(c, rows[i := rows[i].(event := Complete(rows[i].event.body, extra))])
  {
    assert RowLinks(c, rows, i);
    var edited := rows[i := rows[i].(event := Complete(rows[i].event.body, extra))];
    forall j | 0 <= j < |edited| ensures RowLinks(c, edited, j) {
      assert RowLinks(c, rows, j);
      assert PrevOf(edited, j) == PrevOf(rows, j);
    }
  }

  /** Cutting rows off the end is accepted too, and moves the final hash unless a primitive is
      broken: the final hash is what has to be kept elsewhere. */
  lemma TruncationMovesFinalHash<T>(c: Codec<T>, rows: seq<Row<T>>, n: nat)
    requires Chained(c, rows) && n < |rows|
    ensures Chained(c, rows[..n])
    ensures FinalHash(rows[..n]) == FinalHash(rows) ==> Real(c, FindBreach(c, rows[..n], rows))
  {
    ChainedPrefix(c, rows, n);
    if FinalHash(rows[..n]) == FinalHash(rows) {
      SameFinalHashSameHistory(c, rows[..n], rows);
    }
  }

  /** `_event`: link a new body after the last row. */
  function Append<T>(c: Codec<T>, rows: seq<Row<T>>, body: T): seq<Row<T>> {
    rows + [Row(Complete(body, map[]), FinalHash(rows), Link(c, FinalHash(rows), body))]
  }

  lemma AppendKeepsChain<T>(c: Codec<T>, rows: seq<Row<T>>, body: T)
    requires Chained(c, rows)
    ensures Chained(c, Append(c, rows, body))
    ensures Bodies(Append(c, rows, body)) == Bodies(rows) + [Some(body)]
  {
    var longer := Append(c, rows, body);
    forall i | 0 <= i < |longer| ensures RowLinks(c, longer, i) {
      if i < |rows| { assert RowLinks(c, rows, i); }
      assert PrevOf(longer, i) == PrevOf(rows, i);
    }
  }
}
