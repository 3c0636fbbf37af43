/** Facts about sequences that the proofs lean on, each stated once. */
module Seqs {

  lemma FrontLast<T>(s: seq<T>)
    requires s != []
    ensures s == s[..|s| - 1] + [s[|s| - 1]]
  {}

  lemma OneMore<T>(s: seq<T>, i: nat)
    requires i < |s|
    ensures s[..i + 1] == s[..i] + [s[i]]
  {}

  lemma HeadTail<T>(s: seq<T>, i: nat)
    requires i < |s|
    ensures s[i..] == [s[i]] + s[i + 1..]
  {}

  lemma Associate<T>(x: seq<T>, y: seq<T>, z: seq<T>)
    ensures x + y + z == x + (y + z)
  {}

  lemma ConcatFront<T>(a: seq<T>, b: seq<T>)
    requires b != []
    ensures (a + b)[..|a + b| - 1] == a + b[..|b| - 1] && (a + b)[|a + b| - 1] == b[|b| - 1]
  {}

  lemma ConcatNothing<T>(a: seq<T>)
    ensures a + [] == a && [] + a == a
  {}

  lemma OneBack<T>(was: seq<T>, now: seq<T>, i: nat)
    requires i < |was| == |now| && now[..i + 1] == was[..i + 1]
    ensures was[..i + 1] == was[..i] + [now[i]] && now[..i] == was[..i]
  {
    assert now[..i + 1][i] == now[i];
    assert now[..i + 1][..i] == now[..i] && was[..i + 1][..i] == was[..i];
  }

  lemma Replaced<T>(now: seq<T>, i: nat, x: T)
    requires i < |now|
    ensures now[i := x][..i] == now[..i] && now[i := x][i..] == [x] + now[i + 1..]
    ensures now[i := x][..i + 1] == now[..i] + [x] && now[i := x][i + 1..] == now[i + 1..]
  {}
}
