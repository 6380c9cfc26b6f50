/** Sequence facts the proofs use to follow a log that a method extends piece by piece. */
module Logs {

  /** Taking a whole sequence as a prefix gives the sequence. */
  lemma {:induction false} TakeAll<T>(s: seq<T>)
    ensures s[..|s|] == s
  {
  }

  /** A log extended piece by piece equals the start followed by all the pieces. */
  lemma {:induction false} AppendPieces<T>(start: seq<T>, a: seq<T>, b: seq<T>, c: seq<T>, d: seq<T>,
                        l1: seq<T>, l2: seq<T>, l3: seq<T>, l4: seq<T>)
    requires l1 == start + a && l2 == l1 + b && l3 == l2 + c && l4 == l3 + d
    ensures l4 == start + (a + b + c + d)
  {
  }

  /** Three appends to a log, the last of two pieces at once, append the four pieces in order. */
  lemma {:induction false} AppendLastTwo<T>(start: seq<T>, a: seq<T>, b: seq<T>, c: seq<T>, d: seq<T>,
                                          l1: seq<T>, l2: seq<T>, l3: seq<T>)
    requires l1 == start + a && l2 == l1 + b && l3 == l2 + (c + d)
    ensures l3 == start + (a + b + c + d)
  {
  }

  /** One step of a loop that appends `piece` to a log holding start + prefix. */
  lemma {:induction false} AppendStep<T>(start: seq<T>, prefix: seq<T>, piece: seq<T>, whole: seq<T>, done: seq<T>, now: seq<T>)
    requires done == start + prefix && now == done + piece && whole == prefix + piece
    ensures now == start + whole
  {
  }

  /** A log extended twice equals the start followed by both pieces. */
  lemma {:induction false} AppendTwo<T>(start: seq<T>, a: seq<T>, b: seq<T>, l1: seq<T>, l2: seq<T>)
    requires l1 == start + a && l2 == l1 + b
    ensures l2 == start + (a + b)
  {
  }

  /** The last two elements of a concatenation whose back part has at least two. */
  lemma {:induction false} EndsWith<T>(front: seq<T>, back: seq<T>)
    requires |back| >= 2
    ensures var whole := front + back;
      |whole| >= 2 && whole[|whole| - 1] == back[|back| - 1] && whole[|whole| - 2] == back[|back| - 2]
  {
  }

  /** A log extended three times equals the start followed by the three pieces. */
  lemma {:induction false} AppendThree<T>(start: seq<T>, a: seq<T>, b: seq<T>, c: seq<T>, l1: seq<T>, l2: seq<T>, l3: seq<T>)
    requires l1 == start + a && l2 == l1 + b && l3 == l2 + c
    ensures l3 == start + (a + b + c)
  {
  }
}
