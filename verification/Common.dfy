/** Machine integers, element kinds and the error and result types shared by every module. */
module Common {
  type u8 = x: int | 0 <= x < 0x100
  type u16 = x: int | 0 <= x < 0x1_0000
  type u32 = x: int | 0 <= x < 0x1_0000_0000
  type u64 = x: int | 0 <= x < 0x1_0000_0000_0000_0000
  type i32 = x: int | -0x8000_0000 <= x < 0x8000_0000

  /** A 32-bit float is carried as its bit pattern; arithmetic on it is a parameter (see Semantics). */
  type f32 = u32

  const U16_COUNT: nat := 0x1_0000
  const U32_COUNT: nat := 0x1_0000_0000

  datatype Option<+T> = None | Some(value: T)

  datatype ElementKind = KindU32 | KindU64 | KindF32

  datatype BraidError =
    | Cancelled
    | ExecutorShutdown
    | BackendRejectedKernel(kind: u32)
    | MissingBuffer(missing: u16)
    | InvalidBufferType(slot: u16, expected: ElementKind)
    | InvalidSpec
    | Message
    | Panicked // an unwinding panic, as caught by the runtime

  datatype Result<+T> = Ok(value: T) | Err(error: BraidError) {
    predicate IsFailure() {
      Err?
    }

    function PropagateFailure<U>(): Result<U>
      requires Err?
    {
      Err(error)
    }

    function Extract(): T
      requires Ok?
    {
      value
    }
  }

  ghost predicate NoDuplicates<T>(s: seq<T>) {
    forall i, j :: 0 <= i < j < |s| ==> s[i] != s[j]
  }

  ghost function Elements<T>(s: seq<T>): set<T> {
    set x | x in s
  }

  /** A sequence without repeats is as long as the set of its elements. */
  lemma {:induction false} DistinctLength<T>(s: seq<T>)
    requires NoDuplicates(s)
    ensures |Elements(s)| == |s|
  {
    if s != [] {
      var init, last := s[..|s| - 1], s[|s| - 1];
      DistinctLength(init);
      assert s == init + [last];
      assert Elements(s) == Elements(init) + {last};
    }
  }

  /** The naturals below n. */
  ghost function Below(n: nat): (s: set<nat>)
    ensures |s| == n
    ensures forall x: nat :: x in s <==> x < n
  {
    if n == 0 then {} else Below(n - 1) + {n - 1}
  }

  /** Pigeonhole: distinct naturals below n number at most n. */
  lemma {:induction false} Pigeonhole(s: seq<nat>, n: nat)
    requires NoDuplicates(s)
    requires forall x :: x in s ==> x < n
    ensures |s| <= n
  {
    DistinctLength(s);
    assert Elements(s) <= Below(n);
    SubsetSize(Elements(s), Below(n));
  }

  lemma {:induction false} SubsetSize<T>(a: set<T>, b: set<T>)
    requires a <= b
    ensures |a| <= |b|
  {
    if a != {} {
      var x :| x in a;
      SubsetSize(a - {x}, b - {x});
    }
  }
}
