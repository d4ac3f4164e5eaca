/**
 * The error accumulator. A Go `error` built with multierror is modelled by
 * the list of messages it carries; the empty list is the nil error.
 * multierror.Append flattens nested multi-errors, so joining two errors is
 * concatenation of their message lists.
 */
module Errors {
  type Error = seq<string>

  /** What a call ends in: a returned error, or a run-time panic (a nil dereference). */
  datatype Outcome = Returned(errs: Error) | Panic

  /** The messages of all the given errors, in order. */
  function Flatten(errs: seq<Error>): Error
  {
    if |errs| == 0 then [] else Flatten(errs[..|errs| - 1]) + errs[|errs| - 1]
  }

  /** How many times `msg` occurs in `err`. */
  function Count(err: Error, msg: string): nat
  {
    if |err| == 0 then 0 else Count(err[..|err| - 1], msg) + (if err[|err| - 1] == msg then 1 else 0)
  }

  /**
   * The two-error step inside appendErrors: nil on either side yields the
   * other side, two non-nil errors are joined by multierror.Append.
   */
  function AppendError(err: Error, err2: Error): (r: Error)
    ensures r == err + err2
  {
    if err == [] then err2
    else if err2 == [] then err
    else err + err2
  }

  /** multierror.Prefix: every message gets the prefix; the number of messages is kept. */
  function Prefix(prefix: string, err: Error): (r: Error)
    ensures |r| == |err|
    ensures forall i :: 0 <= i < |r| ==> r[i] == prefix + err[i]
  {
    if |err| == 0 then [] else Prefix(prefix, err[..|err| - 1]) + [prefix + err[|err| - 1]]
  }

  /** appendErrors(err, errs...): folds AppendError over the inputs, left to right. */
  method AppendErrors(err: Error, errs: seq<Error>) returns (r: Error)
    ensures r == err + Flatten(errs)
  {
    r := err;
    for i := 0 to |errs|
      invariant r == err + Flatten(errs[..i])
    {
      assert errs[..i + 1][..i] == errs[..i];
      r := AppendError(r, errs[i]);
    }
    assert errs[..|errs|] == errs;
  }

  /** Flattening distributes over concatenation, so the fold is associative. */
  lemma {:induction false} FlattenConcat(a: seq<Error>, b: seq<Error>)
    ensures Flatten(a + b) == Flatten(a) + Flatten(b)
    decreases |b|
  {
    if |b| > 0 {
      var b' := b[..|b| - 1];
      assert (a + b)[..|a + b| - 1] == a + b';
      FlattenConcat(a, b');
    } else {
      assert a + b == a;
    }
  }

  /** The accumulator's invariant: the result is nil exactly when every input is nil. */
  lemma {:induction false} FlattenNil(errs: seq<Error>)
    ensures Flatten(errs) == [] <==> forall i :: 0 <= i < |errs| ==> errs[i] == []
  {
    if |errs| > 0 {
      var init := errs[..|errs| - 1];
      FlattenNil(init);
      assert forall i :: 0 <= i < |init| ==> init[i] == errs[i];
    }
  }

  /** appendErrors returns nil iff its first argument and all the others are nil. */
  lemma {:induction false} AppendErrorsNil(err: Error, errs: seq<Error>)
    ensures err + Flatten(errs) == [] <==> err == [] && forall i :: 0 <= i < |errs| ==> errs[i] == []
  {
    FlattenNil(errs);
  }

  /** Each input's messages appear, unchanged and contiguous, at its place in the result. */
  lemma {:induction false} FlattenKeeps(errs: seq<Error>, k: nat)
    requires k < |errs|
    ensures var off := |Flatten(errs[..k])|;
      off + |errs[k]| <= |Flatten(errs)| && Flatten(errs)[off..off + |errs[k]|] == errs[k]
  {
    assert errs == errs[..k] + [errs[k]] + errs[k + 1..];
    FlattenConcat(errs[..k] + [errs[k]], errs[k + 1..]);
    FlattenConcat(errs[..k], [errs[k]]);
    assert [errs[k]][..0] == [];
  }

  /** A single non-nil input comes back unchanged when every other input is nil. */
  lemma {:induction false} SingleNonNil(errs: seq<Error>, k: nat)
    requires k < |errs|
    requires forall i :: 0 <= i < |errs| && i != k ==> errs[i] == []
    ensures Flatten(errs) == errs[k]
  {
    var before, after := errs[..k], errs[k + 1..];
    assert errs == before + [errs[k]] + after;
    FlattenConcat(before + [errs[k]], after);
    FlattenConcat(before, [errs[k]]);
    assert [errs[k]][..0] == [];
    assert forall i :: 0 <= i < |before| ==> before[i] == errs[i];
    assert forall i :: 0 <= i < |after| ==> after[i] == errs[k + 1 + i];
    FlattenNil(before);
    FlattenNil(after);
  }

  /** Counting messages distributes over concatenation. */
  lemma {:induction false} CountConcat(a: Error, b: Error, msg: string)
    ensures Count(a + b, msg) == Count(a, msg) + Count(b, msg)
    decreases |b|
  {
    if |b| == 0 {
      assert a + b == a;
    } else {
      assert (a + b)[..|a + b| - 1] == a + b[..|b| - 1];
      CountConcat(a, b[..|b| - 1], msg);
    }
  }

  /** A message that does not occur is counted zero times. */
  lemma {:induction false} CountAbsent(err: Error, msg: string)
    requires msg !in err
    ensures Count(err, msg) == 0
  {
    if |err| > 0 {
      CountAbsent(err[..|err| - 1], msg);
    }
  }

  /** Appending one message counts it once more if it is the one counted. */
  lemma CountSnoc(err: Error, m: string, msg: string)
    ensures Count(err + [m], msg) == Count(err, msg) + (if m == msg then 1 else 0)
  {
    assert (err + [m])[..|err|] == err;
  }

  /** The errors of each element of a list, one entry per element, in list order. */
  function Each<T>(xs: seq<T>, check: T -> Error): (es: seq<Error>)
    ensures |es| == |xs| && forall i :: 0 <= i < |xs| ==> es[i] == check(xs[i])
  {
    seq(|xs|, i requires 0 <= i < |xs| => check(xs[i]))
  }

  /**
   * A range loop over a list that appends the errors of each element:
   * the messages of every element in list order, nil exactly when every
   * element passes.
   */
  method CheckEach<T>(xs: seq<T>, check: T -> Error) returns (r: Error)
    ensures r == Flatten(Each(xs, check))
    ensures r == [] <==> forall i :: 0 <= i < |xs| ==> check(xs[i]) == []
  {
    r := [];
    for i := 0 to |xs|
      invariant r == Flatten(Each(xs[..i], check))
    {
      assert Each(xs[..i + 1], check)[..i] == Each(xs[..i], check);
      r := AppendError(r, check(xs[i]));
    }
    assert xs[..|xs|] == xs;
    FlattenNil(Each(xs, check));
  }

  /**
   * A range loop over a map that appends the errors of each entry, in
   * an order the model leaves open: nil exactly when every entry passes.
   */
  method CheckEachEntry<V>(m: map<string, V>, check: (string, V) -> Error) returns (r: Error)
    ensures r == [] <==> forall k :: k in m ==> check(k, m[k]) == []
  {
    r := [];
    var done: set<string> := {};
    while done != m.Keys
      invariant done <= m.Keys
      invariant r == [] <==> forall k :: k in done ==> check(k, m[k]) == []
      decreases |m.Keys - done|
    {
      var k :| k in m.Keys - done;
      r := AppendError(r, check(k, m[k]));
      done := done + {k};
    }
  }
}
