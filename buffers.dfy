/** The caller-supplied output buffer the trampolines hand to user methods
    (`PtrVec`): a view of the first `cap` slots of a host array with a
    length that grows by `Push`.  The type itself is not part of this
    model; it is modelled as a bounded sequence over the host's array. */
module Buffers {

  class PtrVec<T> {
    const buf: array<T>
    const cap: nat
    var len: nat

    ghost predicate Valid()
      reads this
    {
      cap <= buf.Length && len <= cap
    }

    /** The elements pushed so far. */
    ghost function Contents(): seq<T>
      reads this, buf
      requires Valid()
    {
      buf[..len]
    }

    constructor (buf: array<T>, cap: nat)
      requires cap <= buf.Length
      ensures Valid() && this.buf == buf && this.cap == cap && len == 0
      ensures Contents() == []
    {
      this.buf := buf;
      this.cap := cap;
      len := 0;
    }

    /** Appends `x` when there is room; a full buffer refuses the push and
        stays as it was. */
    method Push(x: T) returns (ok: bool)
      requires Valid()
      modifies this, buf
      ensures Valid()
      ensures ok == (old(len) < cap)
      ensures len == if ok then old(len) + 1 else old(len)
      ensures Contents() == if ok then old(Contents()) + [x] else old(Contents())
      ensures buf[len..] == old(buf[..])[len..]
    {
      ok := len < cap;
      if ok {
        buf[len] := x;
        len := len + 1;
      }
    }

    /** Pushes `items` in order, stopping at the first refused push.  It
        succeeds exactly when all of them fit, and the slots past the
        pushed ones are never written. */
    method PushAll(items: seq<T>) returns (ok: bool)
      requires Valid()
      modifies this, buf
      ensures Valid()
      ensures ok == (old(len) + |items| <= cap)
      ensures ok ==> Contents() == old(Contents()) + items
      ensures ok ==> len == old(len) + |items|
      ensures len <= old(len) + |items|
      ensures buf[len..] == old(buf[..])[len..]
    {
      var i := 0;
      ok := true;
      while i < |items| && ok
        invariant 0 <= i <= |items|
        invariant Valid()
        invariant ok ==> len == old(len) + i <= cap
        invariant ok ==> Contents() == old(Contents()) + items[..i]
        invariant !ok ==> len == cap == old(len) + i && i < |items|
        invariant buf[len..] == old(buf[..])[len..]
        decreases |items| - i, if ok then 1 else 0
      {
        ok := Push(items[i]);
        if ok {
          i := i + 1;
        }
      }
    }
  }
}
