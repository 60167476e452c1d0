/** Failure-compatible result type and the error kinds the cost pipeline can raise. */
module Common {

  datatype Option<+T> = None | Some(value: T)

  /** The Python exceptions that abort a cost report, one constructor per cause. */
  datatype Error =
    | DateOutOfRange          // OverflowError / ValueError from datetime arithmetic
    | PagesExhausted          // the billing API stopped answering while a token was pending
    | MissingPeriodStart      // KeyError: a period record has no TimePeriod.Start
    | MalformedDate(text: string)    // ValueError from strptime
    | MalformedAmount(text: string)  // decimal.InvalidOperation from Decimal(str)
    | AmountTooLarge          // decimal.InvalidOperation from quantize (precision exceeded)
    | MissingGroupKey         // IndexError: Keys has too few entries
    | UnknownAccount(id: string)     // KeyError from the account directory lookup

  datatype Result<+R> = Success(value: R) | Failure(error: Error) {
    predicate IsFailure() {
      Failure?
    }

    function PropagateFailure<U>(): Result<U>
      requires Failure?
    {
      Failure(error)
    }

    function Extract(): R
      requires Success?
    {
      value
    }
  }

  /**
   * Runs steps in order, as a Python loop runs statements that may raise: the first failure
   * is the result, otherwise every step's value in order.
   */
  function Sequence<T>(outs: seq<Result<T>>): Result<seq<T>>
  {
    if outs == [] then Success([])
    else
      var before :- Sequence(outs[..|outs| - 1]);
      var last :- outs[|outs| - 1];
      Success(before + [last])
  }

  /** Sequence succeeds exactly when every step does, and then lists their values. */
  lemma {:induction false} SequenceSucceeds<T>(outs: seq<Result<T>>)
    ensures Sequence(outs).Success? <==> forall i :: 0 <= i < |outs| ==> outs[i].Success?
    ensures Sequence(outs).Success? ==>
      |Sequence(outs).value| == |outs| && forall i :: 0 <= i < |outs| ==> Sequence(outs).value[i] == outs[i].value
  {
    if outs != [] {
      var init := outs[..|outs| - 1];
      SequenceSucceeds(init);
      assert forall i :: 0 <= i < |init| ==> outs[i] == init[i];
    }
  }

  /** A non-empty sequence is its front followed by its last element. */
  lemma FrontLast<T>(s: seq<T>)
    requires s != []
    ensures s[..|s| - 1] + [s[|s| - 1]] == s
  {
  }

  /** A non-empty sequence is its first element followed by the rest. */
  lemma HeadRest<T>(s: seq<T>)
    requires s != []
    ensures [s[0]] + s[1..] == s
  {
  }

  /** One more succeeding step extends the values of a succeeding prefix by its value. */
  lemma SequencePrefixStep<T>(outs: seq<Result<T>>, i: nat, done: seq<T>)
    requires i < |outs| && Sequence(outs[..i]) == Success(done) && outs[i].Success?
    ensures Sequence(outs[..i + 1]) == Success(done + [outs[i].value])
  {
    assert outs[..i + 1][..i] == outs[..i];
    assert outs[..i + 1][i] == outs[i];
  }

  /** Where every step before `i` succeeds and step `i` fails, Sequence fails with its error. */
  lemma {:induction false} SequenceFailsAt<T>(outs: seq<Result<T>>, i: nat)
    requires i < |outs| && outs[i].Failure?
    requires forall j :: 0 <= j < i ==> outs[j].Success?
    ensures Sequence(outs) == Failure(outs[i].error)
  {
    var init := outs[..|outs| - 1];
    if i < |init| {
      assert init[i] == outs[i];
      SequenceFailsAt(init, i);
    } else {
      SequenceSucceeds(init);
    }
  }

  /** A failing Sequence reports the error of its first failing step. */
  lemma {:induction false} SequenceFirstError<T>(outs: seq<Result<T>>)
    requires Sequence(outs).Failure?
    ensures exists i :: (0 <= i < |outs| && outs[i] == Failure(Sequence(outs).error)
      && forall j :: 0 <= j < i ==> outs[j].Success?)
  {
    var init := outs[..|outs| - 1];
    assert forall j :: 0 <= j < |init| ==> outs[j] == init[j];
    if Sequence(init).Failure? {
      SequenceFirstError(init);
      var i :| 0 <= i < |init| && init[i] == Failure(Sequence(init).error)
        && forall j :: 0 <= j < i ==> init[j].Success?;
      assert outs[i] == init[i];
    } else {
      SequenceSucceeds(init);
      assert outs[|init|] == Failure(Sequence(outs).error);
    }
  }

  /** Inserting a step that succeeds changes only the values, not whether or how Sequence fails. */
  lemma {:induction false} SequenceInsert<T>(xs: seq<Result<T>>, x: T, ys: seq<Result<T>>)
    ensures Sequence(xs + [Success(x)] + ys).Success? <==> Sequence(xs + ys).Success?
    ensures Sequence(xs + ys).Failure? ==> Sequence(xs + [Success(x)] + ys) == Sequence(xs + ys)
    ensures Sequence(xs + ys).Success? ==>
      var v := Sequence(xs + ys).value;
      |v| == |xs| + |ys| && Sequence(xs + [Success(x)] + ys) == Success(v[..|xs|] + [x] + v[|xs|..])
  {
    if ys == [] {
      assert xs + [Success(x)] + ys == xs + [Success(x)] && xs + ys == xs;
      assert (xs + [Success(x)])[..|xs|] == xs;
      SequenceSucceeds(xs);
      if Sequence(xs).Success? {
        var v := Sequence(xs).value;
        assert v[..|xs|] == v && v[|xs|..] == [];
        assert Sequence(xs + [Success(x)]) == Success(v + [x]);
        assert v[..|xs|] + [x] + v[|xs|..] == v + [x];
      }
    } else {
      var ys' := ys[..|ys| - 1];
      SequenceInsert(xs, x, ys');
      assert (xs + [Success(x)] + ys)[..|xs + [Success(x)] + ys| - 1] == xs + [Success(x)] + ys';
      assert (xs + ys)[..|xs + ys| - 1] == xs + ys';
      SequenceSucceeds(xs + ys');
      if Sequence(xs + ys).Success? {
        var v, v' := Sequence(xs + ys).value, Sequence(xs + ys').value;
        assert v == v' + [ys[|ys| - 1].value];
        assert v[..|xs|] == v'[..|xs|];
        assert v[|xs|..] == v'[|xs|..] + [ys[|ys| - 1].value];
        var last := ys[|ys| - 1];
        assert (xs + [Success(x)] + ys)[|xs + [Success(x)] + ys| - 1] == last;
        assert Sequence(xs + [Success(x)] + ys) == Success(v'[..|xs|] + [x] + v'[|xs|..] + [last.value]);
        assert v'[..|xs|] + [x] + v'[|xs|..] + [last.value] == v[..|xs|] + [x] + v[|xs|..];
      }
    }
  }

  // ---------------------------------------------------------------- one step per item

  /** `f` applied to every item, in order. */
  function Map<A, B>(xs: seq<A>, f: A -> B): (r: seq<B>)
    ensures |r| == |xs| && forall i :: 0 <= i < |xs| ==> r[i] == f(xs[i])
  {
    seq(|xs|, i requires 0 <= i < |xs| => f(xs[i]))
  }

  lemma MapConcat<A, B>(xs: seq<A>, ys: seq<A>, f: A -> B)
    ensures Map(xs + ys, f) == Map(xs, f) + Map(ys, f)
  {
    var m, mx, my := Map(xs + ys, f), Map(xs, f), Map(ys, f);
    forall i | 0 <= i < |xs + ys| ensures m[i] == (mx + my)[i] {
      if i < |xs| {
        assert (xs + ys)[i] == xs[i];
      } else {
        assert (xs + ys)[i] == ys[i - |xs|];
      }
    }
  }

  // ---------------------------------------------------------------- keeping some items

  /** The values of the present entries, in order. */
  function Somes<T>(xs: seq<Option<T>>): seq<T>
  {
    if xs == [] then []
    else
      var last := xs[|xs| - 1];
      Somes(xs[..|xs| - 1]) + (if last.Some? then [last.value] else [])
  }

  /** The items `keep` accepts, in order. */
  function Filter<T>(xs: seq<T>, keep: T -> bool): seq<T>
  {
    if xs == [] then []
    else
      var last := xs[|xs| - 1];
      Filter(xs[..|xs| - 1], keep) + (if keep(last) then [last] else [])
  }

  /** An absent entry contributes nothing, wherever it stands. */
  lemma {:induction false} SomesSkipsNone<T>(xs: seq<Option<T>>, ys: seq<Option<T>>)
    ensures Somes(xs + [None] + ys) == Somes(xs + ys)
  {
    if ys == [] {
      assert xs + [None] + ys == xs + [None] && xs + ys == xs;
      assert (xs + [None])[..|xs|] == xs;
    } else {
      var ys' := ys[..|ys| - 1];
      SomesSkipsNone(xs, ys');
      assert (xs + [None] + ys)[..|xs + [None] + ys| - 1] == xs + [None] + ys';
      assert (xs + ys)[..|xs + ys| - 1] == xs + ys';
    }
  }

  /**
   * Where entry i is present exactly when `keep` accepts item i, and then relates to it by
   * `rel`, the present values pair off one for one, in order, with the accepted items.
   */
  lemma {:induction false} SomesMatchFilter<A, B>(xs: seq<A>, ks: seq<Option<B>>, keep: A -> bool, rel: (B, A) -> bool)
    requires |ks| == |xs|
    requires forall i :: 0 <= i < |xs| ==> (ks[i].Some? <==> keep(xs[i]))
    requires forall i :: 0 <= i < |xs| ==> ks[i].Some? ==> rel(ks[i].value, xs[i])
    ensures |Somes(ks)| == |Filter(xs, keep)|
    ensures forall i :: 0 <= i < |Somes(ks)| ==> rel(Somes(ks)[i], Filter(xs, keep)[i])
  {
    if xs != [] {
      var n := |xs| - 1;
      var xs', ks' := xs[..n], ks[..n];
      assert forall i :: 0 <= i < n ==> xs'[i] == xs[i] && ks'[i] == ks[i];
      SomesMatchFilter(xs', ks', keep, rel);
      var p, q := Somes(ks), Filter(xs, keep);
      assert p == Somes(ks') + (if ks[n].Some? then [ks[n].value] else []);
      assert q == Filter(xs', keep) + (if keep(xs[n]) then [xs[n]] else []);
      forall i | 0 <= i < |p| ensures rel(p[i], q[i]) {
        if i < |Somes(ks')| {
          assert p[i] == Somes(ks')[i] && q[i] == Filter(xs', keep)[i];
        }
      }
    }
  }

  /** A step that succeeds with nothing changes neither a Sequence's failure nor what it keeps. */
  lemma SequenceSkipsNone<T>(xs: seq<Result<Option<T>>>, ys: seq<Result<Option<T>>>)
    ensures var r, r' := Sequence(xs + [Success(None)] + ys), Sequence(xs + ys);
      && (r.Success? <==> r'.Success?)
      && (r.Failure? ==> r == Failure(r'.error))
      && (r.Success? ==> Somes(r.value) == Somes(r'.value))
  {
    SequenceInsert(xs, None, ys);
    if Sequence(xs + ys).Success? {
      var v := Sequence(xs + ys).value;
      SomesSkipsNone(v[..|xs|], v[|xs|..]);
      assert v[..|xs|] + v[|xs|..] == v;
    }
  }
}
