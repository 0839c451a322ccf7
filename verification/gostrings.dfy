/**
 * The two library string operations the protocol relies on: splitting a
 * payload on a one-character separator (Go's strings.Split) and joining a
 * list with a separator (strings.Join).  Pipe-separated fields carry CONNECT
 * and DM payloads, commas separate nicknames in LIST replies and a colon
 * ends the sender's name in a delivered direct message.
 */
module GoStrings {

  /** strings.Split with a one-character separator: the pieces between
      consecutive separators, so a string with k separators has k + 1
      pieces, and the empty string has the single piece "". */
  function Split(s: string, sep: char): (r: seq<string>)
    ensures |r| >= 1
    ensures forall i :: 0 <= i < |r| ==> sep !in r[i]
    ensures r[0] <= s && (|r[0]| < |s| ==> s[|r[0]|] == sep)
    decreases |s|
  {
    if s == [] then [[]]
    else
      var rest := Split(s[1..], sep);
      if s[0] == sep then [[]] + rest
      else [[s[0]] + rest[0]] + rest[1..]
  }

  /** A string with k separators splits into k + 1 pieces. */
  lemma {:induction false} SplitCount(s: string, sep: char)
    ensures |Split(s, sep)| == multiset(s)[sep] + 1
    decreases |s|
  {
    if s != [] {
      SplitCount(s[1..], sep);
      assert s == [s[0]] + s[1..];
    }
  }

  /** strings.Join: the parts with `sep` between each adjacent pair. */
  function Join(parts: seq<string>, sep: string): (r: string)
  {
    if |parts| == 0 then []
    else if |parts| == 1 then parts[0]
    else parts[0] + sep + Join(parts[1..], sep)
  }

  /** The text before the first separator, or all of `s` when it has none:
      the longest prefix of `s` free of `sep`. */
  function FirstField(s: string, sep: char): (r: string)
    ensures r <= s && sep !in r
    ensures |r| < |s| ==> s[|r|] == sep
  {
    Split(s, sep)[0]
  }

  lemma JoinCons(a: string, rest: seq<string>, sep: string)
    requires |rest| >= 1
    ensures Join([a] + rest, sep) == a + sep + Join(rest, sep)
  {
  }

  lemma JoinExtendHead(x: string, rest: seq<string>, sep: string)
    requires |rest| >= 1
    ensures Join([x + rest[0]] + rest[1..], sep) == x + Join(rest, sep)
  {
  }

  /** Splitting then joining with the same separator gives back the input. */
  lemma {:induction false} JoinSplit(s: string, sep: char)
    ensures Join(Split(s, sep), [sep]) == s
    decreases |s|
  {
    if s != [] {
      var rest := Split(s[1..], sep);
      JoinSplit(s[1..], sep);
      if s[0] == sep {
        JoinCons([], rest, [sep]);
      } else {
        JoinExtendHead([s[0]], rest, [sep]);
      }
      assert [s[0]] + s[1..] == s;
    }
  }

  /** A separator-free prefix glues onto the first piece of the rest. */
  lemma {:induction false} SplitPrefix(a: string, t: string, sep: char)
    requires sep !in a
    ensures Split(a + t, sep) == [a + Split(t, sep)[0]] + Split(t, sep)[1..]
    decreases |a|
  {
    if a == [] {
      var st := Split(t, sep);
      assert a + t == t && a + st[0] == st[0];
      assert [st[0]] + st[1..] == st;
    } else {
      var st := Split(t, sep);
      var rest := Split((a + t)[1..], sep);
      assert (a + t)[1..] == a[1..] + t;
      SplitPrefix(a[1..], t, sep);
      assert rest == [a[1..] + st[0]] + st[1..];
      assert (a + t)[0] == a[0] && a[0] != sep;
      assert Split(a + t, sep) == [[a[0]] + rest[0]] + rest[1..];
      assert [a[0]] + (a[1..] + st[0]) == a + st[0];
    }
  }

  /** Joining pieces that do not contain the separator, then splitting,
      gives back the pieces. */
  lemma {:induction false} SplitJoin(parts: seq<string>, sep: char)
    requires |parts| >= 1
    requires forall i :: 0 <= i < |parts| ==> sep !in parts[i]
    ensures Split(Join(parts, [sep]), sep) == parts
    decreases |parts|
  {
    if |parts| == 1 {
      SplitPrefix(parts[0], [], sep);
      assert parts[0] + [] == parts[0];
    } else {
      var tail := Join(parts[1..], [sep]);
      SplitJoin(parts[1..], sep);
      JoinCons(parts[0], parts[1..], [sep]);
      assert [parts[0]] + parts[1..] == parts;
      var t := [sep] + tail;
      assert t[1..] == tail;
      assert Split(t, sep) == [[]] + parts[1..];
      assert Join(parts, [sep]) == parts[0] + t;
      SplitPrefix(parts[0], t, sep);
      assert parts[0] + [] == parts[0];
    }
  }

  /** Splitting at a leading separator yields an empty first piece. */
  lemma SplitAtSeparator(t: string, sep: char)
    ensures Split([sep] + t, sep) == [[]] + Split(t, sep)
  {
  }

  /** A separator-free field followed by a separator splits off as one piece. */
  lemma SplitField(a: string, x: string, sep: char)
    requires sep !in a
    ensures Split(a + [sep] + x, sep) == [a] + Split(x, sep)
  {
    SplitAtSeparator(x, sep);
    SplitPrefix(a, [sep] + x, sep);
    assert a + [sep] + x == a + ([sep] + x);
    assert a + [] == a;
  }

  /** Joining separator-free pieces and appending a separator and more text
      splits into the pieces followed by the pieces of that text. */
  lemma {:induction false} SplitJoinThen(parts: seq<string>, sep: char, t: string)
    requires |parts| >= 1
    requires forall i :: 0 <= i < |parts| ==> sep !in parts[i]
    ensures Split(Join(parts, [sep]) + [sep] + t, sep) == parts + Split(t, sep)
    decreases |parts|
  {
    if |parts| == 1 {
      SplitField(parts[0], t, sep);
    } else {
      var rest := parts[1..];
      var x := Join(rest, [sep]) + [sep] + t;
      SplitJoinThen(rest, sep, t);
      JoinCons(parts[0], rest, [sep]);
      assert [parts[0]] + rest == parts;
      assert Join(parts, [sep]) + [sep] + t == parts[0] + [sep] + x;
      SplitField(parts[0], x, sep);
    }
  }

  /** A three-piece join written out. */
  lemma JoinThree(parts: seq<string>, sep: string)
    requires |parts| == 3
    ensures Join(parts, sep) == parts[0] + sep + parts[1] + sep + parts[2]
  {
    JoinCons(parts[0], parts[1..], sep);
    JoinCons(parts[1], parts[2..], sep);
    assert parts == [parts[0]] + parts[1..];
    assert parts[1..] == [parts[1]] + parts[2..];
  }

  /** The three-field form of SplitJoin used by DM payloads. */
  lemma SplitThree(a: string, b: string, c: string, sep: char)
    requires sep !in a && sep !in b && sep !in c
    ensures Split(a + [sep] + b + [sep] + c, sep) == [a, b, c]
  {
    JoinThree([a, b, c], [sep]);
    SplitJoin([a, b, c], sep);
  }

  /** The two-field form of SplitJoin used by CONNECT payloads. */
  lemma SplitTwo(a: string, b: string, sep: char)
    requires sep !in a && sep !in b
    ensures Split(a + [sep] + b, sep) == [a, b]
  {
    JoinCons(a, [b], [sep]);
    assert [a] + [b] == [a, b];
    SplitJoin([a, b], sep);
  }

  /** The first field of "name" + sep + rest is the name, when the name
      itself has no separator. */
  lemma FirstFieldOf(a: string, sep: char, t: string)
    requires sep !in a
    ensures FirstField(a + [sep] + t, sep) == a
  {
    var u := [sep] + t;
    assert u[0] == sep && u[1..] == t;
    assert Split(u, sep)[0] == [];
    SplitPrefix(a, u, sep);
    assert a + [sep] + t == a + u;
    assert a + [] == a;
  }
}
