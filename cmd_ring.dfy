/**
  The circular command buffer of the stage driver as values: eight command
  slots and the two indices `front` (the next command to send) and `back`
  (the next free slot). One slot is always left unused, so `front == back`
  means empty and "back is just behind front" means full.
 */
module CmdRing {
  import opened Ints

  /** CMD_BUFFER_SIZE. */
  const N: int := 8

  /**
    One queued motion: its id, the three axis targets (the third is kept in
    a field the driver calls `f`) and the feed rate, carried but never sent.
   */
  datatype Cmd = Cmd(cmdNo: int16, x: int, y: int, f: int, speed: int)

  /** A slot as calloc and memset leave it. */
  const ZeroCmd: Cmd := Cmd(0, 0, 0, 0, 0)

  predicate InRange(i: int) {
    0 <= i < N
  }

  /** The index after `i`, written as the driver writes it: step, then wrap 8 to 0. */
  function Next(i: int): (j: int)
    requires InRange(i)
    ensures InRange(j) && j == (i + 1) % N
  {
    if i + 1 == N then 0 else i + 1
  }

  predicate IsEmpty(front: int, back: int) {
    front == back
  }

  /** The driver's full test, spelled out without a modulus. */
  predicate IsFull(front: int, back: int) {
    back + 1 == front || (back + 1 == N && front == 0)
  }

  /**
    The commands resident in the buffer, oldest first: the slots from
    `front` up to, not including, `back`, going round the end of the array.
   */
  function Resident(slots: seq<Cmd>, front: int, back: int): (r: seq<Cmd>)
    requires |slots| == N && InRange(front) && InRange(back)
    ensures |r| == (back - front) % N
    ensures forall k :: 0 <= k < |r| ==> r[k] == slots[(front + k) % N]
  {
    if front <= back then slots[front..back] else slots[front..] + slots[..back]
  }

  /** The full test is exactly "the slot after back is front". */
  lemma FullIsNextBackAtFront(front: int, back: int)
    requires InRange(front) && InRange(back)
    ensures IsFull(front, back) <==> (back + 1) % N == front
  {
  }

  /** Empty means nothing resident; full means N - 1 = 7 resident, the most there can be. */
  lemma ResidentCount(slots: seq<Cmd>, front: int, back: int)
    requires |slots| == N && InRange(front) && InRange(back)
    ensures IsEmpty(front, back) <==> Resident(slots, front, back) == []
    ensures IsFull(front, back) <==> |Resident(slots, front, back)| == N - 1
    ensures |Resident(slots, front, back)| <= N - 1
  {
  }

  /** Writing a command into slot `back` and stepping `back` appends it to the queue. */
  lemma PushResident(slots: seq<Cmd>, front: int, back: int, c: Cmd)
    requires |slots| == N && InRange(front) && InRange(back)
    requires !IsFull(front, back)
    ensures Resident(slots[back := c], front, Next(back)) == Resident(slots, front, back) + [c]
  {
  }

  /** Clearing slot `front` and stepping `front` removes the oldest command. */
  lemma PopResident(slots: seq<Cmd>, front: int, back: int, blank: Cmd)
    requires |slots| == N && InRange(front) && InRange(back)
    requires !IsEmpty(front, back)
    ensures Resident(slots, front, back)[0] == slots[front]
    ensures Resident(slots[front := blank], Next(front), back) == Resident(slots, front, back)[1..]
  {
  }
}
