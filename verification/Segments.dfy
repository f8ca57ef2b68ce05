/** The blocks of a sequence of targets: its maximal runs of one and the same target. What an engine
    should trade is said in their terms. */
module Segments {
  /** The bars from..until-1. */
  datatype Segment = Segment(from: nat, until: nat)

  /** All of s has one target other than `flat`, and the bars just before and just after it have another. */
  ghost predicate IsSegment<T>(targets: seq<T>, flat: T, s: Segment) {
    && s.from < s.until < |targets| && targets[s.from] != flat
    && (forall k :: s.from <= k < s.until ==> targets[k] == targets[s.from])
    && (s.from > 0 ==> targets[s.from - 1] != targets[s.from]) && targets[s.until] != targets[s.from]
  }

  /** Where the block that bar n-1 belongs to begins. */
  ghost function StartOf<T>(targets: seq<T>, n: nat): (start: nat)
    requires 0 < n <= |targets|
    ensures start < n
  {
    if n >= 2 && targets[n - 2] == targets[n - 1] then StartOf(targets, n - 1) else n - 1
  }

  /** The blocks with a target that have ended by bar n-1, oldest first. */
  ghost function Segs<T>(targets: seq<T>, flat: T, n: nat): seq<Segment>
    requires n <= |targets|
  {
    if n < 2 then []
    else if targets[n - 2] == flat || targets[n - 2] == targets[n - 1] then Segs(targets, flat, n - 1)
    else Segs(targets, flat, n - 1) + [Segment(StartOf(targets, n - 1), n - 1)]
  }

  lemma {:induction false} StartOfIsStart<T>(targets: seq<T>, n: nat)
    requires 0 < n <= |targets|
    ensures var start := StartOf(targets, n);
            && start < n && (forall k :: start <= k < n ==> targets[k] == targets[n - 1])
            && (start > 0 ==> targets[start - 1] != targets[start])
  {
    if n >= 2 && targets[n - 2] == targets[n - 1] { StartOfIsStart(targets, n - 1); }
  }

  /** The block that ends at bar n-1 is the one that begins at StartOf. */
  lemma {:induction false} EndingHere<T>(targets: seq<T>, flat: T, n: nat, s: Segment)
    requires 2 <= n <= |targets|
    ensures IsSegment(targets, flat, s) && s.until == n - 1 <==>
            targets[n - 2] != flat && targets[n - 2] != targets[n - 1] && s == Segment(StartOf(targets, n - 1), n - 1)
  {
    StartOfIsStart(targets, n - 1);
    if IsSegment(targets, flat, s) && s.until == n - 1 {
      OneStart(targets, s.from, StartOf(targets, n - 1), n - 1);
    }
  }

  /** The list holds every block that has ended, each once and in order. */
  lemma {:induction false} SegsExact<T>(targets: seq<T>, flat: T, n: nat)
    requires n <= |targets|
    ensures var segs := Segs(targets, flat, n);
            && (forall s :: s in segs <==> IsSegment(targets, flat, s) && s.until < n)
            && (forall i, j :: 0 <= i < j < |segs| ==> segs[i].until <= segs[j].from)
  {
    if n >= 2 {
      SegsExact(targets, flat, n - 1);
      var earlier := Segs(targets, flat, n - 1);
      forall s: Segment ensures s in Segs(targets, flat, n) <==> IsSegment(targets, flat, s) && s.until < n {
        EndingHere(targets, flat, n, s);
      }
      forall i | 0 <= i < |earlier| ensures earlier[i].until <= StartOf(targets, n - 1) {
        assert earlier[i] in earlier;
        EndedBefore(targets, flat, n - 1, earlier[i]);
      }
    }
  }

  /** A block that has ended by bar n-1 ends where the block of bar n-1 begins, or before. */
  lemma {:induction false} EndedBefore<T>(targets: seq<T>, flat: T, n: nat, s: Segment)
    requires 0 < n <= |targets| && IsSegment(targets, flat, s) && s.until < n
    ensures s.until <= StartOf(targets, n)
  {
    StartOfIsStart(targets, n);
  }

  lemma {:induction false} OneStart<T>(targets: seq<T>, a: nat, b: nat, n: nat)
    requires a < n && b < n <= |targets|
    requires forall k :: a <= k < n ==> targets[k] == targets[n - 1]
    requires forall k :: b <= k < n ==> targets[k] == targets[n - 1]
    requires a > 0 ==> targets[a - 1] != targets[a]
    requires b > 0 ==> targets[b - 1] != targets[b]
    ensures a == b
  {
  }
}
