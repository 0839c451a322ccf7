/**
 * The server's list of connected nicknames.  The server keeps it beside the
 * nickname-to-stream map and recomputes it on every change: append for an
 * addition, splice out the first match for a removal.
 */
module Directory {

  /** The position of the first occurrence of `n`. */
  function IndexOf(xs: seq<string>, n: string): (i: nat)
    requires n in xs
    ensures i < |xs| && xs[i] == n && n !in xs[..i]
  {
    if xs[0] == n then 0
    else
      assert xs == [xs[0]] + xs[1..];
      var j := IndexOf(xs[1..], n);
      assert xs[..j + 1] == [xs[0]] + xs[1..][..j];
      1 + j
  }

  /** Specification of a removal: the first occurrence of `n` is cut out and
      the others keep their order; a list without `n` stays as it is. */
  function RemoveFirst(xs: seq<string>, n: string): (r: seq<string>)
    ensures n !in xs ==> r == xs
    ensures n in xs ==> r == xs[..IndexOf(xs, n)] + xs[IndexOf(xs, n) + 1..]
  {
    if xs == [] then []
    else if xs[0] == n then xs[1..]
    else
      assert xs == [xs[0]] + xs[1..];
      var rest := RemoveFirst(xs[1..], n);
      if n in xs[1..] then
        var j := IndexOf(xs[1..], n);
        assert IndexOf(xs, n) == j + 1;
        assert xs[..j + 1] == [xs[0]] + xs[1..][..j];
        assert xs[j + 2..] == xs[1..][j + 1..];
        [xs[0]] + rest
      else
        [xs[0]] + rest
  }

  /** A removal shrinks the list by exactly the one occurrence it cuts. */
  lemma {:induction false} RemoveFirstMultiset(xs: seq<string>, n: string)
    ensures n in xs ==> multiset(RemoveFirst(xs, n)) == multiset(xs) - multiset{n}
    ensures n in xs ==> |RemoveFirst(xs, n)| == |xs| - 1
  {
    if n in xs {
      var i := IndexOf(xs, n);
      assert xs == xs[..i] + [xs[i]] + xs[i + 1..];
      assert multiset(xs) == multiset(xs[..i]) + multiset{n} + multiset(xs[i + 1..]);
    }
  }

  /** updateNicknamesContext: the nickname list after adding `nickname`
      (appended, with no duplicate check) or removing it (the first match
      found by a left-to-right scan is spliced out). */
  method UpdateNicknamesContext(nicknames: seq<string>, nickname: string, add: bool)
    returns (r: seq<string>)
    ensures add ==> r == nicknames + [nickname]
    ensures !add ==> r == RemoveFirst(nicknames, nickname)
  {
    r := nicknames;
    if add {
      r := r + [nickname];
    } else {
      var i := 0;
      while i < |r|
        invariant 0 <= i <= |r|
        invariant r == nicknames
        invariant nickname !in nicknames[..i]
      {
        if r[i] == nickname {
          r := r[..i] + r[i + 1..];
          return;
        }
        i := i + 1;
      }
      assert nicknames[..i] == nicknames;
    }
  }
}
