/**
 The few pieces of the Go runtime the protocols rest on: optional values, buffered
 channels, and counting facts about sequences without repetitions.
 */
module GoRuntime {

  datatype Option<+T> = None | Some(value: T)

  /**
   A buffered channel. `fault` records that an operation was attempted which Go would
   answer with a panic (send or close on a closed channel) or by blocking the sender
   (send on a full channel); it is never reset, so `!fault` speaks about the whole past.
   */
  datatype Chan<T> = Chan(cap: nat, buf: seq<T>, closed: bool, fault: bool) {
    function Send(v: T): Chan<T> {
      if closed || |buf| >= cap then this.(fault := true) else this.(buf := buf + [v])
    }

    function Close(): Chan<T> {
      if closed then this.(fault := true) else this.(closed := true)
    }
  }

  function NewChan<T>(cap: nat): Chan<T> {
    Chan(cap, [], false, false)
  }

  ghost predicate Distinct<T>(s: seq<T>) {
    forall i, j :: 0 <= i < j < |s| ==> s[i] != s[j]
  }

  ghost function Elems<T>(s: seq<T>): set<T> {
    set x | x in s
  }

  lemma SubsetSize<T>(a: set<T>, b: set<T>)
    requires a <= b
    ensures |a| <= |b|
    ensures |a| == |b| ==> a == b
  {
    var rest := b - a;
    assert b == a + rest && a !! rest;
    assert |b| == |a| + |rest|;
  }

  lemma {:induction false} ElemsSize<T>(s: seq<T>)
    ensures |Elems(s)| <= |s|
    ensures Distinct(s) ==> |Elems(s)| == |s|
  {
    if s != [] {
      var front, last := s[..|s| - 1], s[|s| - 1];
      ElemsSize(front);
      assert s == front + [last];
      assert Elems(s) == Elems(front) + {last};
      if Distinct(s) {
        assert last !in front;
      }
    }
  }

  /** Distinct values drawn from a list are no more than the list is long. */
  lemma Pigeonhole<T>(s: seq<T>, pool: seq<T>)
    requires Distinct(s)
    requires forall x :: x in s ==> x in pool
    ensures |s| <= |pool|
  {
    ElemsSize(s);
    ElemsSize(pool);
    SubsetSize(Elems(s), Elems(pool));
  }

  ghost function Below(n: nat): (s: set<nat>)
    ensures |s| == n
    ensures forall i: nat :: i in s <==> i < n
  {
    if n == 0 then {} else Below(n - 1) + {n - 1}
  }
}
