/** The counting argument behind the rings' bounded-step promise. */
module WaitFreedom {

  function Owned(own: seq<bool>): nat {
    if own == [] then 0 else Owned(own[1..]) + if own[0] then 1 else 0
  }

  /** `left[i]` is what a thread still needs after i steps of the system and `own[i]` says that step i
      was its own. If own steps cost at least one and no step adds, enough own steps reach 0. */
  lemma {:induction false} ReachesZero(left: seq<nat>, own: seq<bool>) returns (n: nat)
    requires |left| == |own| + 1
    requires forall i :: 0 <= i < |own| && left[i] > 0 ==> left[i + 1] + (if own[i] then 1 else 0) <= left[i]
    requires Owned(own) >= left[0]
    ensures n <= |own| && left[n] == 0
    decreases |own|
  {
    if left[0] == 0 {
      n := 0;
    } else {
      var rest := left[1..];
      assert forall i :: 0 <= i < |own| - 1 ==> rest[i] == left[i + 1] && own[1..][i] == own[i + 1];
      n := ReachesZero(rest, own[1..]);
      n := n + 1;
    }
  }

  function OwnSteps<A(==)>(after: seq<A>, own: A): (owned: seq<bool>)
    ensures |owned| == |after| && forall i :: 0 <= i < |after| ==> owned[i] == (after[i] == own)
  {
    seq(|after|, i requires 0 <= i < |after| => after[i] == own)
  }

  /** `left` is what a thread still needs after a run. If it never grows along `after` and each of the thread's own
      actions lowers it, enough of them bring it to 0. */
  lemma {:induction false} Returns<A>(left: seq<A> -> nat, before: seq<A>, after: seq<A>, own: A) returns (n: nat)
    requires forall i :: 0 <= i < |after| && left(before + after[..i]) > 0 ==>
               left(before + after[..i + 1]) + (if after[i] == own then 1 else 0) <= left(before + after[..i])
    requires Owned(OwnSteps(after, own)) >= left(before + after[..0])
    ensures n <= |after| && left(before + after[..n]) == 0
  {
    var along := seq(|after| + 1, i requires 0 <= i <= |after| => left(before + after[..i]));
    n := ReachesZero(along, OwnSteps(after, own));
  }
}
