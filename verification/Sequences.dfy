/** Rotated and patched sequences: what rings and in-place loops do to a buffer. */
module Sequences {
  /** `x` reduced modulo the capacity, for the values below twice the capacity that occur. */
  function Wrap(x: nat, cap: nat): nat
    requires x < 2 * cap
  {
    if x >= cap then x - cap else x
  }

  function Rotate<T>(a: seq<T>, head: nat): seq<T>
    requires head <= |a|
  {
    a[head..] + a[..head]
  }

  function Patched<T>(a: seq<T>, at: nat, data: seq<T>): seq<T>
    requires at + |data| <= |a|
  {
    a[..at] + data + a[at + |data|..]
  }

  /** Replacing a stretch of the buffer, seen through the rotation. */
  lemma RotatePatched<T>(a: seq<T>, head: nat, at: nat, data: seq<T>, from: nat)
    requires head <= |a| && at + |data| <= |a|
    requires (head <= at && from == at - head) || (at + |data| <= head && from == |a| - head + at)
    ensures Rotate(Patched(a, at, data), head) == Patched(Rotate(a, head), from, data)
  {
    var b, v := Patched(a, at, data), Rotate(a, head);
    var left, right := Rotate(b, head), Patched(v, from, data);
    forall i | 0 <= i < |a|
      ensures left[i] == right[i]
    {
      RotateAt(b, head, i);
      RotateAt(a, head, i);
      PatchedAt(v, from, data, i);
      PatchedAt(a, at, data, Wrap(head + i, |a|));
    }
  }

  lemma RotateAt<T>(a: seq<T>, head: nat, i: nat)
    requires head <= |a| && i < |a|
    ensures Rotate(a, head)[i] == a[Wrap(head + i, |a|)]
  {
  }

  lemma PatchedAt<T>(a: seq<T>, at: nat, data: seq<T>, i: nat)
    requires at + |data| <= |a| && i < |a|
    ensures Patched(a, at, data)[i] == if at <= i < at + |data| then data[i - at] else a[i]
  {
  }

  lemma PatchedPrefix<T>(v: seq<T>, at: nat, data: seq<T>)
    requires at + |data| <= |v|
    ensures Patched(v, at, data)[..at + |data|] == v[..at] + data
  {
  }

  lemma PatchedNothing<T>(v: seq<T>)
    ensures Patched(v, 0, []) == v
  {
  }

  lemma PatchedTwice<T>(v: seq<T>, at: nat, d1: seq<T>, d2: seq<T>)
    requires at + |d1| + |d2| <= |v|
    ensures Patched(Patched(v, at, d1), at + |d1|, d2) == Patched(v, at, d1 + d2)
  {
  }

  lemma SetPrefix<T>(v: seq<T>, n: nat, x: T)
    requires n < |v|
    ensures v[n := x][..n + 1] == v[..n] + [x]
  {
  }

  /** Moving the head on by `m`. */
  lemma Skipped<T>(a: seq<T>, head: nat, count: nat, m: nat)
    requires head < |a| && m <= count <= |a|
    ensures head + m < 2 * |a| && Wrap(head + m, |a|) < |a|
    ensures Rotate(a, Wrap(head + m, |a|))[..count - m] == Rotate(a, head)[..count][m..]
  {
    var h := Wrap(head + m, |a|);
    forall i | 0 <= i < count - m
      ensures Rotate(a, h)[i] == Rotate(a, head)[m + i]
    {
      RotateAt(a, h, i);
      RotateAt(a, head, m + i);
    }
  }
}
