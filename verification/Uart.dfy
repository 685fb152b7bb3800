/** The input ring of driver/uart.c. */
module Uart {
  import opened Rings

  type byte = x: int | 0 <= x < 256

  datatype Option<T> = None | Some(value: T)

  /** The ring as `uart_push_char` leaves it; a full ring discards the character. */
  function Buffered(size: nat, q: seq<byte>, c: byte): seq<byte>
  {
    if |q| < size then q + [c] else q
  }

  /** The ring; `contents` is what it holds, oldest first. */
  class UartQueue {
    var size: nat
    var count: nat
    var head: nat
    var tail: nat
    const chars: array<byte>
    ghost var contents: seq<byte>

    ghost predicate Valid()
      reads this, chars
      ensures Valid() ==> |contents| == count <= size
    {
      && size == chars.Length > 0
      && count <= size
      && head < size && tail == Slot(size, head, count)
      && |contents| == count
      && LaidOut(chars[..], head, contents)
    }

    /** The ring part of `init_uart`, which asserts a nonzero size. */
    constructor (n: nat)
      requires n > 0
      ensures Valid() && fresh(chars) && size == n && contents == []
    {
      chars := new byte[n](_ => 0);
      size := n;
      count, head, tail := 0, 0, 0;
      contents := [];
    }

    /** `uart_push_char`; `received` is what the hardware FIFO holds, None when it is empty. */
    method PushChar(received: Option<byte>) returns (ok: bool)
      requires Valid()
      modifies this, chars
      ensures Valid() && size == old(size)
      ensures ok == (received.Some? && |old(contents)| < size)
      ensures contents == if received.Some? then Buffered(size, old(contents), received.value) else old(contents)
    {
      if received.None? {
        return false;
      }
      if count >= size {
        return false;
      }
      chars[tail] := received.value;
      tail := CircleForward(tail, size);
      count := count + 1;
      contents := contents + [received.value];
      return true;
    }

    method PeekChar() returns (c: byte)
      requires Valid() && contents != []
      ensures c == contents[0]
    {
      c := chars[head];
    }

    /** `uart_pop_char`: it does not test for an empty ring, both of its callers do. */
    method PopChar() returns (c: byte)
      requires Valid() && contents != []
      modifies this
      ensures Valid() && size == old(size)
      ensures c == old(contents)[0] && contents == old(contents)[1..]
    {
      c := PeekChar();
      head := CircleForward(head, size);
      count := count - 1;
      contents := contents[1..];
    }

    method QueueIsEmpty() returns (b: bool)
      requires Valid()
      ensures b <==> contents == []
    {
      b := count == 0;
    }
  }
}
