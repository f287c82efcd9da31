/** Folding a list of per-item results left to right, as a loop that extends a list and stops
    at the first error does. */
module Gathering {
  import opened Wrappers

  /** The pieces concatenated in order. */
  function Flatten<T>(xss: seq<seq<T>>): seq<T>
    decreases |xss|
  {
    if xss == [] then [] else Flatten(xss[..|xss| - 1]) + xss[|xss| - 1]
  }

  lemma {:induction false} FlattenPrefix<T>(xss: seq<seq<T>>, j: nat)
    requires j <= |xss|
    ensures Flatten(xss[..j]) <= Flatten(xss)
    decreases |xss|
  {
    if j < |xss| {
      var n := |xss| - 1;
      assert xss[..n][..j] == xss[..j];
      FlattenPrefix(xss[..n], j);
      assert (Flatten(xss[..n]) + xss[n])[..|Flatten(xss[..j])|] == Flatten(xss[..n])[..|Flatten(xss[..j])|];
    } else {
      assert xss[..j] == xss;
    }
  }

  lemma {:induction false} FlattenEmpty<T>(xss: seq<seq<T>>)
    requires forall i :: 0 <= i < |xss| ==> xss[i] == []
    ensures Flatten(xss) == []
    decreases |xss|
  {
    if xss != [] {
      FlattenEmpty(xss[..|xss| - 1]);
    }
  }

  /** Taking one more element of `s`, and taking all of it. */
  lemma TakeStep<T>(s: seq<T>, i: nat)
    requires i < |s|
    ensures s[..i + 1][..i] == s[..i] && s[..i + 1][i] == s[i]
  {
  }

  lemma TakeAll<T>(s: seq<T>)
    ensures s[..|s|] == s
  {
  }

  /** The pieces concatenated in order, or the first failure among them. */
  function Gather<T, E>(ps: seq<Result<seq<T>, E>>): Result<seq<T>, E>
    decreases |ps|
  {
    if ps == [] then Success([])
    else
      var n := |ps| - 1;
      match Gather(ps[..n])
      case Failure(e) => Failure(e)
      case Success(xs) =>
        match ps[n]
        case Failure(e) => Failure(e)
        case Success(ys) => Success(xs + ys)
  }

  /** Once the first `j` pieces have failed to gather, the whole list fails the same way. */
  lemma {:induction false} GatherFailureSticks<T, E>(ps: seq<Result<seq<T>, E>>, j: nat)
    requires j <= |ps| && Gather(ps[..j]).Failure?
    ensures Gather(ps) == Gather(ps[..j])
    decreases |ps|
  {
    if j < |ps| {
      var n := |ps| - 1;
      assert ps[..n][..j] == ps[..j];
      GatherFailureSticks(ps[..n], j);
    } else {
      assert ps[..j] == ps;
    }
  }

  predicate AllSucceed<T, E>(ps: seq<Result<T, E>>)
  {
    forall i :: 0 <= i < |ps| ==> ps[i].Success?
  }

  function Values<T, E>(ps: seq<Result<T, E>>): (vs: seq<T>)
    requires AllSucceed(ps)
    ensures |vs| == |ps| && forall i :: 0 <= i < |ps| ==> ps[i] == Success(vs[i])
  {
    seq(|ps|, i requires 0 <= i < |ps| && AllSucceed(ps) => ps[i].value)
  }

  /** When every piece succeeds, gathering gives all their values, concatenated in order. */
  lemma {:induction false} GatherSucceeds<T, E>(ps: seq<Result<seq<T>, E>>)
    requires AllSucceed(ps)
    ensures Gather(ps) == Success(Flatten(Values(ps)))
    decreases |ps|
  {
    if ps != [] {
      var n := |ps| - 1;
      GatherSucceeds(ps[..n]);
      assert Values(ps)[..n] == Values(ps[..n]);
    }
  }

  /** When piece `i` is the first to fail, gathering fails with its error. */
  lemma {:induction false} GatherFails<T, E>(ps: seq<Result<seq<T>, E>>, i: nat)
    requires i < |ps| && ps[i].Failure? && AllSucceed(ps[..i])
    ensures Gather(ps) == Failure(ps[i].error)
    decreases |ps|
  {
    var n := |ps| - 1;
    if i < n {
      assert ps[..n][..i] == ps[..i];
      GatherFails(ps[..n], i);
    } else {
      assert ps[..n] == ps[..i];
      GatherSucceeds(ps[..n]);
    }
  }

  /** Piece `i` is the first to fail. */
  predicate FailsFirstAt<T, E>(ps: seq<Result<seq<T>, E>>, i: int)
  {
    0 <= i < |ps| && ps[i].Failure? && AllSucceed(ps[..i])
  }

  /** Gathering succeeds exactly when every piece does. */
  lemma {:induction false} GatherSuccessIff<T, E>(ps: seq<Result<seq<T>, E>>)
    ensures Gather(ps).Success? <==> AllSucceed(ps)
    decreases |ps|
  {
    if ps != [] {
      var n := |ps| - 1;
      GatherSuccessIff(ps[..n]);
      assert AllSucceed(ps) ==> AllSucceed(ps[..n]) by {
        if AllSucceed(ps) {
          forall k | 0 <= k < n ensures ps[..n][k].Success? {
            assert ps[..n][k] == ps[k];
          }
        }
      }
      assert AllSucceed(ps[..n]) && ps[n].Success? ==> AllSucceed(ps) by {
        if AllSucceed(ps[..n]) && ps[n].Success? {
          forall k | 0 <= k < |ps| ensures ps[k].Success? {
            if k < n {
              assert ps[..n][k] == ps[k];
            }
          }
        }
      }
    }
  }

  /** At most one piece fails first. */
  lemma FirstFailureUnique<T, E>(ps: seq<Result<seq<T>, E>>, i: int, j: int)
    requires FailsFirstAt(ps, i) && FailsFirstAt(ps, j)
    ensures i == j
  {
  }

  /** A loop that has gathered the first `i` pieces and meets a failing piece `i` stops with
      that failure: it is the first, the gathering of all pieces fails with it, and what two
      per-piece logs `ws` and `ks` hold up to that point are prefixes of their whole. */
  lemma {:induction false} StopsAt<T, E, W, K>(ps: seq<Result<seq<T>, E>>, ws: seq<seq<W>>, ks: seq<seq<K>>, i: nat)
    requires i < |ps| && |ws| == |ps| && |ks| == |ps|
    requires Gather(ps[..i]).Success? && ps[i].Failure?
    ensures FailsFirstAt(ps, i) && forall j :: FailsFirstAt(ps, j) ==> j == i
    ensures Gather(ps) == Failure(ps[i].error)
    ensures Flatten(ws[..i + 1]) == Flatten(ws[..i]) + ws[i] && Flatten(ws[..i + 1]) <= Flatten(ws)
    ensures Flatten(ks[..i]) <= Flatten(ks)
  {
    GatherSuccessIff(ps[..i]);
    forall j | FailsFirstAt(ps, j) ensures j == i {
      FirstFailureUnique(ps, i, j);
    }
    GatherFails(ps, i);
    TakeStep(ws, i);
    FlattenPrefix(ws, i + 1);
    FlattenPrefix(ks, i);
  }

  /** Two successful pieces gather to their values in order. */
  lemma GatherPair<T, E>(a: Result<seq<T>, E>, b: Result<seq<T>, E>)
    requires a.Success? && b.Success?
    ensures Gather([a, b]) == Success(a.value + b.value)
  {
    assert [a][..0] == [];
    assert [] + a.value == a.value;
    assert Gather([a]) == Success(a.value);
    assert [a, b][..1] == [a];
  }

  /** One more successful piece: gathering and both flattenings each grow by that piece. */
  lemma Advances<T, E, W, K>(ps: seq<Result<seq<T>, E>>, ws: seq<seq<W>>, ks: seq<seq<K>>, i: nat)
    requires i < |ps| && |ws| == |ps| && |ks| == |ps|
    requires Gather(ps[..i]).Success? && ps[i].Success?
    ensures Gather(ps[..i + 1]) == Success(Gather(ps[..i]).value + ps[i].value)
    ensures Flatten(ws[..i + 1]) == Flatten(ws[..i]) + ws[i]
    ensures Flatten(ks[..i + 1]) == Flatten(ks[..i]) + ks[i]
  {
    TakeStep(ps, i);
    TakeStep(ws, i);
    TakeStep(ks, i);
  }

  /** What has been written and warned about when the walk over the pieces stops: everything
      written up to and including the first failing piece, everything warned about before it. */
  ghost predicate StopsWith<T, E, W, K>(ps: seq<Result<seq<T>, E>>, ws: seq<seq<W>>, ks: seq<seq<K>>, saved: seq<W>, warned: seq<K>)
    requires |ws| == |ps| && |ks| == |ps|
  {
    forall i :: FailsFirstAt(ps, i) ==> saved == Flatten(ws[..i + 1]) && warned == Flatten(ks[..i])
  }

  /** Stopping at the first failing piece `i` gives exactly the steps up to it. */
  lemma StopsWithAt<T, E, W, K>(ps: seq<Result<seq<T>, E>>, ws: seq<seq<W>>, ks: seq<seq<K>>, i: nat)
    requires i < |ps| && |ws| == |ps| && |ks| == |ps|
    requires Gather(ps[..i]).Success? && ps[i].Failure?
    ensures StopsWith(ps, ws, ks, Flatten(ws[..i + 1]), Flatten(ks[..i]))
  {
    StopsAt(ps, ws, ks, i);
  }

  /** When every piece gathers, there is no first failure to stop at. */
  lemma StopsWithNone<T, E, W, K>(ps: seq<Result<seq<T>, E>>, ws: seq<seq<W>>, ks: seq<seq<K>>, saved: seq<W>, warned: seq<K>)
    requires |ws| == |ps| && |ks| == |ps|
    requires Gather(ps).Success?
    ensures StopsWith(ps, ws, ks, saved, warned)
  {
    GatherSuccessIff(ps);
  }
}
