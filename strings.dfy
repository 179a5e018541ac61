/** Go's `strings.Split(s, " ")` and `strings.Join(parts, " ")` on a single-space separator. */
module Strings {

  const Space: char := ' '

  /** The pieces of `s` between consecutive spaces; `""` splits into `[""]`, as in Go. */
  function Split(s: string): (parts: seq<string>)
    ensures |parts| >= 1
    ensures forall i :: 0 <= i < |parts| ==> Space !in parts[i]
  {
    if |s| == 0 then [""]
    else if s[0] == Space then [""] + Split(s[1..])
    else
      var rest := Split(s[1..]);
      [[s[0]] + rest[0]] + rest[1..]
  }

  /** The pieces glued back together with one space between neighbours. */
  function Join(parts: seq<string>): (s: string)
    decreases |parts|
  {
    if |parts| == 0 then ""
    else if |parts| == 1 then parts[0]
    else parts[0] + [Space] + Join(parts[1..])
  }

  /** The number of spaces in `s`. */
  function Spaces(s: string): nat
  {
    if |s| == 0 then 0 else (if s[0] == Space then 1 else 0) + Spaces(s[1..])
  }

  /** Splitting yields one piece more than there are spaces, so empty and doubled spaces give empty pieces. */
  lemma {:induction false} SplitCount(s: string)
    ensures |Split(s)| == Spaces(s) + 1
  {
    if |s| > 0 { SplitCount(s[1..]); }
  }

  lemma {:induction false} JoinCons(c: char, parts: seq<string>)
    requires |parts| >= 1
    ensures Join([[c] + parts[0]] + parts[1..]) == [c] + Join(parts)
  {
    var ps := [[c] + parts[0]] + parts[1..];
    assert ps[1..] == parts[1..];
    if |parts| > 1 {
      assert Join(ps) == ps[0] + [Space] + Join(ps[1..]);
    }
  }

  /** Joining the pieces of a split restores the original string exactly. */
  lemma {:induction false} JoinSplit(s: string)
    ensures Join(Split(s)) == s
  {
    if |s| == 0 {
    } else if s[0] == Space {
      JoinSplit(s[1..]);
      var rest := Split(s[1..]);
      assert ([""] + rest)[1..] == rest;
      assert Join([""] + rest) == "" + [Space] + Join(rest);
      assert s == [s[0]] + s[1..];
    } else {
      JoinSplit(s[1..]);
      JoinCons(s[0], Split(s[1..]));
      assert s == [s[0]] + s[1..];
    }
  }

  /** Splitting a join of space-free pieces gives back those pieces. */
  lemma {:induction false} SplitJoin(parts: seq<string>)
    requires |parts| >= 1
    requires forall i :: 0 <= i < |parts| ==> Space !in parts[i]
    ensures Split(Join(parts)) == parts
    decreases |parts|, |parts[0]|
  {
    if |parts[0]| > 0 {
      var c := parts[0][0];
      var tail := [parts[0][1..]] + parts[1..];
      assert c in parts[0];
      assert forall i :: 0 <= i < |tail| ==> Space !in tail[i] by {
        forall i | 0 <= i < |tail| ensures Space !in tail[i] {
          if i == 0 {
            assert tail[0] == parts[0][1..];
          } else {
            assert tail[i] == parts[i];
          }
        }
      }
      SplitJoin(tail);
      assert tail[1..] == parts[1..];
      assert [c] + tail[0] == parts[0];
      JoinCons(c, tail);
      assert [[c] + tail[0]] + tail[1..] == parts;
      var j := Join(parts);
      assert j == [c] + Join(tail);
      assert j[1..] == Join(tail);
    } else if |parts| > 1 {
      var j := Join(parts);
      assert j == [Space] + Join(parts[1..]);
      assert j[1..] == Join(parts[1..]);
      SplitJoin(parts[1..]);
      assert [""] + parts[1..] == parts;
    }
  }
}
