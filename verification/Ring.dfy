/** Vocabulary shared by the component models: options, machine integers and
    the bounded ring (array + head + count) that the report pump, the two Steam
    feedback queues and the keyboard/mouse endpoint all use. */
module Ring {

  datatype Option<+T> = None | Some(value: T)

  newtype uint8 = x: int | 0 <= x < 0x100

  const TWO_TO_32: int := 0x1_0000_0000

  /** The elements of a ring in order: `count` slots starting at `head`, the
      index taken modulo the number of slots. */
  function View<T>(slots: seq<T>, head: nat, count: nat): (contents: seq<T>)
    requires 0 < |slots| && count <= |slots|
    ensures |contents| == count
  {
    seq(count, i requires 0 <= i < count => slots[(head + i) % |slots|])
  }

  /** A modular index never needs more than one wrap-around. */
  lemma Wrap(head: nat, i: nat, size: nat)
    requires head < size && i <= size
    ensures (head + i) % size == if head + i < size then head + i else head + i - size
  {
    var q, m := (head + i) / size, (head + i) % size;
    assert head + i == q * size + m;
    assert q < 2;
  }

  lemma ViewAt<T>(slots: seq<T>, head: nat, count: nat, i: nat)
    requires 0 < |slots| && head < |slots| && i < count <= |slots|
    ensures View(slots, head, count)[i] == slots[if head + i < |slots| then head + i else head + i - |slots|]
  {
    Wrap(head, i, |slots|);
  }

  /** Storing behind the last element appends to the contents. */
  lemma Push<T>(slots: seq<T>, head: nat, count: nat, x: T)
    requires head < |slots| && count < |slots|
    ensures View(slots[(head + count) % |slots| := x], head, count + 1) == View(slots, head, count) + [x]
  {
    var tail := (head + count) % |slots|;
    var slots' := slots[tail := x];
    Wrap(head, count, |slots|);
    forall i | 0 <= i < count + 1
      ensures View(slots', head, count + 1)[i] == (View(slots, head, count) + [x])[i]
    {
      Wrap(head, i, |slots|);
      ViewAt(slots', head, count + 1, i);
      if i < count { ViewAt(slots, head, count, i); }
    }
  }

  /** Advancing the head removes the first element of the contents. */
  lemma Pop<T>(slots: seq<T>, head: nat, count: nat)
    requires head < |slots| && 0 < count <= |slots|
    ensures (head + 1) % |slots| < |slots|
    ensures View(slots, (head + 1) % |slots|, count - 1) == View(slots, head, count)[1..]
    ensures View(slots, head, count)[0] == slots[head]
  {
    Wrap(head, 1, |slots|);
    PopTo(slots, head, count, if head + 1 < |slots| then head + 1 else 0);
    ViewAt(slots, head, count, 0);
  }

  lemma PopTo<T>(slots: seq<T>, head: nat, count: nat, next: nat)
    requires head < |slots| && 0 < count <= |slots|
    requires next == if head + 1 < |slots| then head + 1 else 0
    ensures View(slots, next, count - 1) == View(slots, head, count)[1..]
  {
    forall i | 0 <= i < count - 1
      ensures View(slots, next, count - 1)[i] == View(slots, head, count)[1..][i]
    {
      ViewAt(slots, next, count - 1, i);
      ViewAt(slots, head, count, i + 1);
    }
  }

  /** Overwriting one stored element overwrites that element of the contents. */
  lemma Put<T>(slots: seq<T>, head: nat, count: nat, k: nat, x: T)
    requires head < |slots| && k < count <= |slots|
    ensures View(slots[(head + k) % |slots| := x], head, count) == View(slots, head, count)[k := x]
  {
    var at := (head + k) % |slots|;
    Wrap(head, k, |slots|);
    var slots' := slots[at := x];
    forall i | 0 <= i < count
      ensures View(slots', head, count)[i] == View(slots, head, count)[k := x][i]
    {
      ViewAt(slots', head, count, i);
      ViewAt(slots, head, count, i);
    }
  }

  /** Forgetting the last element shortens the contents. */
  lemma Chop<T>(slots: seq<T>, head: nat, count: nat)
    requires head < |slots| && 0 < count <= |slots|
    ensures View(slots, head, count - 1) == View(slots, head, count)[..count - 1]
  {}

  function Remove<T>(s: seq<T>, k: nat): (r: seq<T>)
    requires k < |s|
    ensures |r| == |s| - 1
  {
    s[..k] + s[k + 1..]
  }
}
