/**
 * The `key=value&key=value` shape of the usage report's query string, and its
 * reading back. The report is built by string concatenation; this module gives
 * the independent view of the same text as a list of parameters, so that what the
 * receiving end decodes can be stated.
 */
module Query {

  datatype Param = Param(key: string, value: string)

  /** One `key=value` piece. */
  function Pair(p: Param): string {
    p.key + "=" + p.value
  }

  /** `&key=value` for each parameter, in order: the shape of every appended piece. */
  function Tail(ps: seq<Param>): string {
    if |ps| == 0 then "" else "&" + Pair(ps[0]) + Tail(ps[1..])
  }

  /** The parameters joined with `&`. */
  function JoinParams(ps: seq<Param>): string
    requires |ps| > 0
  {
    Pair(ps[0]) + Tail(ps[1..])
  }

  /** A parameter that survives joining and splitting: no separator inside. */
  predicate Separable(p: Param) {
    '=' !in p.key && '&' !in p.key && '&' !in p.value
  }

  /** Position of the first `c` in `s`, or `|s|` when there is none. */
  function IndexOf(s: string, c: char): (i: nat)
    ensures i <= |s|
    ensures i < |s| ==> s[i] == c
    ensures forall j :: 0 <= j < i ==> s[j] != c
  {
    if |s| == 0 then 0
    else if s[0] == c then 0
    else 1 + IndexOf(s[1..], c)
  }

  /** Splits one piece at its first `=`; a piece without one is a key with an empty value. */
  function ParsePair(piece: string): Param {
    var i := IndexOf(piece, '=');
    if i < |piece| then Param(piece[..i], piece[i + 1..]) else Param(piece, "")
  }

  /** Splits a query string at every `&` and each piece at its first `=`. */
  function ParseParams(s: string): (ps: seq<Param>)
    ensures |ps| > 0
    decreases |s|
  {
    var i := IndexOf(s, '&');
    if i < |s| then [ParsePair(s[..i])] + ParseParams(s[i + 1..])
    else [ParsePair(s)]
  }

  /** The first `c` in `a + [c] + b` is the one after `a` when `a` has none. */
  lemma IndexOfAfter(a: string, c: char, b: string)
    requires c !in a
    ensures IndexOf(a + [c] + b, c) == |a|
  {
    var s := a + [c] + b;
    var i := IndexOf(s, c);
    assert s[|a|] == c;
    assert forall j :: 0 <= j < |a| ==> s[j] == a[j];
  }

  lemma IndexOfAbsent(s: string, c: char)
    requires c !in s
    ensures IndexOf(s, c) == |s|
  {
  }

  lemma ParsePairOfPair(p: Param)
    requires Separable(p)
    ensures ParsePair(Pair(p)) == p
  {
    IndexOfAfter(p.key, '=', p.value);
    assert Pair(p) == p.key + ['='] + p.value;
    assert Pair(p)[..|p.key|] == p.key;
    assert Pair(p)[|p.key| + 1..] == p.value;
  }

  /** A separable parameter's piece has no `&`. */
  lemma PairHasNoAmp(p: Param)
    requires Separable(p)
    ensures '&' !in Pair(p)
  {
    assert Pair(p) == p.key + "=" + p.value;
  }

  /** Splitting stops at the first `&`: the piece before it, then the rest parsed on its own. */
  lemma ParseAfterFirstAmp(head: string, rest: string)
    requires '&' !in head
    ensures ParseParams(head + "&" + rest) == [ParsePair(head)] + ParseParams(rest)
  {
    var s := head + "&" + rest;
    assert s == head + ['&'] + rest;
    IndexOfAfter(head, '&', rest);
    assert s[..|head|] == head;
    assert s[|head| + 1..] == rest;
  }

  /** Reading back what was joined gives the same parameters, in the same order. */
  lemma {:induction false} ParseJoin(ps: seq<Param>)
    requires |ps| > 0
    requires forall k :: 0 <= k < |ps| ==> Separable(ps[k])
    ensures ParseParams(JoinParams(ps)) == ps
  {
    var head := Pair(ps[0]);
    PairHasNoAmp(ps[0]);
    ParsePairOfPair(ps[0]);
    if |ps| == 1 {
      assert JoinParams(ps) == head;
      IndexOfAbsent(head, '&');
    } else {
      var rest := ps[1..];
      assert Tail(rest) == "&" + JoinParams(rest);
      assert JoinParams(ps) == head + "&" + JoinParams(rest);
      ParseAfterFirstAmp(head, JoinParams(rest));
      ParseJoin(rest);
      assert ps == [ps[0]] + rest;
    }
  }

  /** Appending `&key=value` pieces to a joined list is joining the longer list. */
  lemma JoinAppend(prefix: string, ps: seq<Param>, extra: seq<Param>)
    requires |ps| > 0
    ensures prefix + JoinParams(ps) + Tail(extra) == prefix + JoinParams(ps + extra)
  {
    assert (ps + extra)[0] == ps[0];
    assert (ps + extra)[1..] == ps[1..] + extra;
    TailAppend(ps[1..], extra);
  }

  /** Appending parameters one `&` at a time is the same as appending them all at once. */
  lemma {:induction false} TailAppend(a: seq<Param>, b: seq<Param>)
    ensures Tail(a + b) == Tail(a) + Tail(b)
  {
    if |a| == 0 {
      assert a + b == b;
    } else {
      assert (a + b)[0] == a[0];
      assert (a + b)[1..] == a[1..] + b;
      TailAppend(a[1..], b);
    }
  }
}
