/** The ring buffer of buffer.c and the byte queue it implements. */
module Buffers {
  import opened Bits

  /** Outcome of recvmsg: bytes, an orderly shutdown by the peer, or an error. */
  datatype RecvResult = Received(bytes: seq<byte>) | EndOfStream | RecvTemporary | RecvFailed

  /** Outcome of sendmsg: a count of accepted bytes or an error. */
  datatype SendResult = Sent(count: nat) | SendTemporary | SendFailed

  /** One entry of a struct iovec, as an offset into the storage. */
  datatype Region = Region(base: nat, len: nat)

  const BUFFER_MAX_SIZE: nat := 1024 * 1024 * 1024

  function Min(a: nat, b: nat): nat { if a < b then a else b }

  /**
   * What a buffer is to its callers: a byte queue with a capacity. The head
   * position stays visible because buffer_coalesce depends on it.
   */
  datatype Queue = Queue(size: nat, head: nat, bytes: seq<byte>, rx: nat, tx: nat) {

    predicate Valid() {
      && head < size
      && |bytes| <= size
      && rx == tx + |bytes|
    }

    function Room(): int { size - |bytes| }

    /** Reading into an empty buffer starts again at offset 0. */
    function Rewound(): Queue {
      if bytes == [] then this.(head := 0) else this
    }

    function Append(s: seq<byte>): Queue {
      this.(bytes := bytes + s, rx := rx + |s|)
    }

    function Drop(n: nat): Queue
      requires Valid() && n <= |bytes|
    {
      this.(head := Wrap(head + n, size), bytes := bytes[n..], tx := tx + n)
    }

    /** How many bytes a limit selects; 0 means no limit. */
    function Limited(available: nat, limit: nat): nat {
      if limit == 0 then available else Min(limit, available)
    }

    function Push(s: seq<byte>): Queue {
      if Room() < |s| then Rewound() else Rewound().Append(s)
    }

    /** A push out of a larger memory; a limit of 0 fills all the room. */
    function PushLimited(memory: seq<byte>, limit: nat): Queue
      requires Valid() && limit <= |memory| && (limit == 0 ==> Room() <= |memory|)
    {
      if Room() < limit then Rewound() else Rewound().Append(memory[..Limited(Room(), limit)])
    }

    function Pop(limit: nat): Queue
      requires Valid()
    {
      Drop(Limited(|bytes|, limit))
    }

    function Recv(r: RecvResult): Queue {
      if r.Received? then Rewound().Append(r.bytes) else Rewound()
    }

    function Send(r: SendResult): Queue
      requires Valid() && (r.Sent? ==> r.count <= |bytes|)
    {
      if r.Sent? then Drop(r.count) else this
    }

    /** buffer.c takes a tail at or below the head to mean "not wrapped". */
    predicate CoalesceKeeps()
      requires Valid()
    {
      Wrap(head + |bytes|, size) <= head
    }

    function Coalesce(): Queue
      requires Valid()
    {
      if CoalesceKeeps() then this
      else this.(head := 0, rx := rx + |bytes|, tx := tx + |bytes|)
    }

    function Resize(newSize: nat): (r: (int, Queue)) {
      if NotPowerOf2(newSize) then (-4, this)
      else if newSize > BUFFER_MAX_SIZE then (-3, this)
      else if newSize < |bytes| then (-1, this)
      else (|bytes|, this.(size := newSize, head := 0))
    }
  }

  /** Pushing a nonempty string whole. */
  lemma PushWhole(q: Queue, s: seq<byte>)
    requires q.Valid() && s != []
    ensures q.PushLimited(s, |s|) == q.Push(s)
  {
    assert s[..|s|] == s;
  }

  /** What is received or pushed into an empty buffer begins at offset 0, so that it does not wrap. */
  lemma FilledFromEmpty(q: Queue, r: RecvResult, s: seq<byte>)
    requires q.Valid() && q.bytes == [] && (r.Received? ==> |r.bytes| <= q.size) && |s| <= q.size
    ensures q.Recv(r).head == 0 && q.Recv(r).head + |q.Recv(r).bytes| <= q.size
    ensures q.Push(s).bytes == s && q.Push(s).head == 0 && q.Push(s).head + |q.Push(s).bytes| <= q.size
  {
  }

  /** A new capacity is taken if and only if it is a power of two of at most 2^30 that the bytes fit. */
  lemma ResizeExactly(q: Queue, newSize: nat)
    requires q.Valid()
    ensures var (result, r) := q.Resize(newSize);
            var power := exists k: nat :: newSize == Pow2(k);
            var fits := power && newSize <= 0x4000_0000 && |q.bytes| <= newSize;
            && (fits ==> result == |q.bytes| && r.size == newSize && r.bytes == q.bytes && r.Valid())
            && (!fits ==> r == q && result == if !power then -4 else if newSize > 0x4000_0000 then -3 else -1)
  {
    PowerOf2Test(newSize);
  }

  /** A queue that wrapped: the region buffer_coalesce would hand out leaves the storage. */
  lemma WrappedQueue()
    ensures var q := Queue(4, 0, [], 0, 0).Push([1, 2, 3]).Pop(2).Push([4, 5]);
            q.Valid() && q.bytes == [3, 4, 5] && q.CoalesceKeeps() && q.head + |q.bytes| > q.size
  {
    var q := Queue(4, 0, [], 0, 0).Push([1, 2, 3]);
    assert q.bytes == [1, 2, 3] && q.Pop(2).bytes == [3];
    assert q.Pop(2).Push([4, 5]).bytes == [3, 4, 5];
  }

  /** Bytes described by an iovec of at most two entries. */
  function Total(iov: seq<Region>): nat
    requires |iov| <= 2
  {
    if |iov| == 0 then 0 else if |iov| == 1 then iov[0].len else iov[0].len + iov[1].len
  }

  /** The storage offset of the i-th byte described by an iovec of at most two entries. */
  function OffsetOf(iov: seq<Region>, i: nat): nat
    requires |iov| <= 2 && i < Total(iov)
  {
    if i < iov[0].len then iov[0].base + i else iov[1].base + (i - iov[0].len)
  }

  /** The asserts at the end of setup_write_iov and setup_read_iov. */
  predicate WellFormed(iov: seq<Region>, size: nat) {
    && |iov| <= 2
    && (forall r :: r in iov ==> r.len > 0 && r.base + r.len <= size)
    && (|iov| == 2 ==> iov[1].base == 0 && iov[1].base + iov[1].len <= iov[0].base)
  }

  /** The regions list, in order, the n ring positions that begin at start. */
  ghost predicate Covers(iov: seq<Region>, start: nat, n: nat, size: nat)
    requires start < size && n <= size
  {
    && WellFormed(iov, size)
    && Total(iov) == n
    && (forall i :: 0 <= i < n ==> OffsetOf(iov, i) == Wrap(start + i, size))
  }

  /**
   * The regions for writing name distinct storage offsets, none of which holds a queued
   * byte; the regions for reading name the offsets of the oldest bytes and no others.
   */
  lemma RegionsApart(w: seq<Region>, r: seq<Region>, head: nat, len: nat, n: nat, m: nat, size: nat)
    requires head < size && len <= size && n <= size - len && m <= len
    requires Covers(w, Wrap(head + len, size), n, size) && Covers(r, head, m, size)
    ensures forall i, j :: 0 <= i < j < n ==> OffsetOf(w, i) != OffsetOf(w, j)
    ensures forall i, j :: 0 <= i < j < m ==> OffsetOf(r, i) != OffsetOf(r, j)
    ensures forall i, j :: 0 <= i < n && 0 <= j < m ==> OffsetOf(w, i) != OffsetOf(r, j)
  {
    forall i, j | 0 <= i < n && 0 <= j < m
      ensures OffsetOf(w, i) != OffsetOf(r, j)
    {
      assert OffsetOf(w, i) == Wrap(Wrap(head + len, size) + i, size) == Wrap(head + len + i, size);
    }
  }

  /** The storage read as a ring from position start. */
  ghost function Rotated(d: seq<byte>, start: nat): (s: seq<byte>)
    requires start < |d|
    ensures |s| == |d|
  {
    d[start..] + d[..start]
  }

  /** Starting n places later moves the first n bytes to the end. */
  lemma RotateOn(d: seq<byte>, head: nat, n: nat)
    requires head < |d| && n <= |d|
    ensures Rotated(d, Wrap(head + n, |d|)) == Rotated(d, head)[n..] + Rotated(d, head)[..n]
  {
  }

  /** Overwriting one region changes exactly that stretch of the ring. */
  lemma RegionWrite(d: seq<byte>, d': seq<byte>, start: nat, at: nat, src: seq<byte>)
    requires start < |d| && at + |src| <= |d| && at < |d|
    requires Wrap(start + at, |d|) + |src| <= |d|
    requires var base := Wrap(start + at, |d|); d' == d[..base] + src + d[base + |src|..]
    ensures Rotated(d', start) == Rotated(d, start)[..at] + src + Rotated(d, start)[at + |src|..]
  {
  }

  lemma RegionRead(d: seq<byte>, start: nat, at: nat, n: nat)
    requires start < |d| && at < |d| && at + n <= |d| && Wrap(start + at, |d|) + n <= |d|
    ensures var base := Wrap(start + at, |d|);
            d[base..base + n] == Rotated(d, start)[at..at + n]
  {
  }

  lemma PrefixGrows(r: seq<byte>, at: nat, n: nat)
    requires at + n <= |r|
    ensures r[..at] + r[at..at + n] == r[..at + n]
  {
  }

  /** Bytes that do not wrap are one stretch of the storage. */
  lemma Contiguous(d: seq<byte>, head: nat, len: nat)
    requires head < |d| && head + len <= |d|
    ensures d[head..head + len] == Rotated(d, head)[..len]
  {
  }

  lemma Extend(src: seq<byte>, before: seq<byte>, r: seq<byte>, r': seq<byte>, at: nat, n: nat)
    requires at + n <= |src| <= |before|
    requires r == src[..at] + before[at..]
    requires r' == r[..at] + src[at..at + n] + r[at + n..]
    ensures r' == src[..at + n] + before[at + n..]
  {
    assert r[at + n..] == before[at + n..];
    assert src[..at] + src[at..at + n] == src[..at + n];
  }

  /** Bytes written from the tail on extend what is read from the head. */
  lemma AppendRing(d: seq<byte>, d': seq<byte>, head: nat, len: nat, src: seq<byte>)
    requires head < |d| == |d'| && len + |src| <= |d|
    requires var tail := Wrap(head + len, |d|);
             Rotated(d', tail) == src + Rotated(d, tail)[|src|..]
    ensures Rotated(d', head)[..len + |src|] == Rotated(d, head)[..len] + src
  {
    RotateOn(d, head, len);
    RotateOn(d', head, len);
    AppendParts(Rotated(d, head), Rotated(d', head), len, src);
  }

  lemma AppendParts(r: seq<byte>, r': seq<byte>, len: nat, src: seq<byte>)
    requires |r| == |r'| && len + |src| <= |r|
    requires r'[len..] + r'[..len] == src + (r[len..] + r[..len])[|src|..]
    ensures r'[..len + |src|] == r[..len] + src
  {
    var rotated := r'[len..] + r'[..len];
    forall i | 0 <= i < len + |src|
      ensures r'[i] == (r[..len] + src)[i]
    {
      assert r'[i] == if i < len then rotated[|r| - len + i] else rotated[i - len];
    }
  }

  lemma SplitAt(r: seq<byte>, queued: seq<byte>, src: seq<byte>)
    requires |queued| + |src| <= |r| && r[..|queued| + |src|] == queued + src
    ensures r[..|queued|] == queued && r[|queued|..|queued| + |src|] == src
  {
    var front := r[..|queued| + |src|];
    assert front[..|queued|] == queued && front[|queued|..] == src;
  }

  /** Dropping n bytes leaves the rest readable from the advanced head. */
  lemma DropRing(d: seq<byte>, head: nat, len: nat, n: nat)
    requires head < |d| && n <= len <= |d|
    ensures Rotated(d, Wrap(head + n, |d|))[..len - n] == Rotated(d, head)[..len][n..]
  {
    RotateOn(d, head, n);
  }

  class Buffer {
    var data: array<byte>
    var sizeMask: nat
    var head: nat
    var len: nat
    var txBytes: nat
    var rxBytes: nat

    ghost predicate Valid()
      reads this
    {
      && data.Length == sizeMask + 1
      && !NotPowerOf2(data.Length)
      && head <= sizeMask
      && len <= data.Length
      && rxBytes == txBytes + len
    }

    ghost function Contents(): (s: seq<byte>)
      requires Valid()
      reads this, data
      ensures |s| == len
    {
      Rotated(data[..], head)[..len]
    }

    ghost function View(): (q: Queue)
      requires Valid()
      reads this, data
      ensures q.Valid()
    {
      Queue(data.Length, head, Contents(), rxBytes, txBytes)
    }

    constructor (size: nat)
      requires !NotPowerOf2(size)
      ensures Valid() && fresh(data)
      ensures View() == Queue(size, 0, [], 0, 0)
    {
      data := new byte[size];
      sizeMask := size - 1;
      head, len, txBytes, rxBytes := 0, 0, 0, 0;
    }

    function Size(): nat
      reads this
    {
      sizeMask + 1
    }

    function Room(): (r: nat)
      requires len <= sizeMask + 1
      reads this
      ensures r + len == sizeMask + 1
    {
      sizeMask + 1 - len
    }

    /** The regions a write of at most `limit` bytes may fill (0: no limit). */
    method SetupWriteIov(limit: nat) returns (iov: seq<Region>)
      requires Valid()
      ensures Covers(iov, Wrap(head + len, data.Length),
                     if limit == 0 then data.Length - len else Min(data.Length - len, limit),
                     data.Length)
    {
      var room := Size() - len;
      if room == 0 {
        return [];
      }
      var writeLen := room;
      if limit != 0 {
        writeLen := Min(room, limit);
      }
      MaskIsWrap(head + len, data.Length);
      var start := And(head + len, sizeMask);
      iov := RegionsFrom(start, writeLen, Size());
    }

    /** The regions holding the oldest bytes, at most `limit` of them (0: no limit). */
    method SetupReadIov(limit: nat) returns (iov: seq<Region>)
      requires Valid()
      ensures Covers(iov, head, if limit == 0 then len else Min(limit, len), data.Length)
    {
      if len == 0 {
        return [];
      }
      var readLen := len;
      if limit != 0 {
        readLen := Min(limit, len);
      }
      iov := RegionsFrom(head, readLen, Size());
    }

    /** The branch shared by both setup functions: one region, or two when it wraps. */
    static method RegionsFrom(start: nat, n: nat, size: nat) returns (iov: seq<Region>)
      requires start < size && 0 < n <= size
      ensures Covers(iov, start, n, size)
    {
      if start + n <= size {
        iov := [Region(start, n)];
      } else {
        iov := [Region(start, size - start), Region(0, n - (size - start))];
      }
    }

    /** Copies src into the storage through the regions, as memcpy per entry or recvmsg would. */
    method Scatter(iov: seq<Region>, src: seq<byte>, ghost start: nat, ghost room: nat)
      requires data.Length > 0 && start < data.Length && |src| <= room <= data.Length
      requires Covers(iov, start, room, data.Length)
      modifies data
      ensures Rotated(data[..], start) == src + Rotated(old(data[..]), start)[|src|..]
    {
      ghost var before := Rotated(data[..], start);
      var copied, k := 0, 0;
      assert before == src[..0] + before[0..];
      while k < |iov| && copied < |src|
        invariant k <= |iov| <= 2 && copied == Before(iov, k, |src|)
        invariant Rotated(data[..], start) == src[..copied] + before[copied..]
      {
        copied := CopyEntry(iov, k, src, copied, start, room, before);
        k := k + 1;
      }
      assert copied == |src| && src[..copied] == src;
    }

    /** How much of n bytes the entries before the k-th hold. */
    static function Before(iov: seq<Region>, k: nat, n: nat): nat
      requires k <= |iov| <= 2
    {
      if k == 0 then 0 else if k == 1 then Min(iov[0].len, n) else Min(Total(iov), n)
    }

    /** The k-th entry takes over where the entries before it end. */
    static lemma EntryAt(iov: seq<Region>, k: nat, n: nat)
      requires k < |iov| <= 2 && Before(iov, k, n) < n <= Total(iov) && forall r :: r in iov ==> r.len > 0
      ensures var at := Before(iov, k, n);
              OffsetOf(iov, at) == iov[k].base && Before(iov, k + 1, n) == at + Min(iov[k].len, n - at)
    {
    }

    method CopyEntry(iov: seq<Region>, k: nat, src: seq<byte>, copied: nat,
                     ghost start: nat, ghost room: nat, ghost before: seq<byte>)
      returns (copied': nat)
      requires data.Length > 0 && start < data.Length && |src| <= room <= data.Length
      requires Covers(iov, start, room, data.Length)
      requires k < |iov| && copied < |src| && copied == Before(iov, k, |src|)
      requires |before| == data.Length && Rotated(data[..], start) == src[..copied] + before[copied..]
      modifies data
      ensures copied < copied' == Before(iov, k + 1, |src|) <= |src|
      ensures Rotated(data[..], start) == src[..copied'] + before[copied'..]
    {
      var n := Min(iov[k].len, |src| - copied);
      EntryAt(iov, k, |src|);
      ghost var d := Rotated(data[..], start);
      CopyRegion(iov[k].base, src[copied..copied + n], start, copied);
      Extend(src, before, d, Rotated(data[..], start), copied, n);
      copied' := copied + n;
    }

    method CopyRegion(base: nat, src: seq<byte>, ghost start: nat, ghost at: nat)
      requires start < data.Length && at < data.Length && at + |src| <= data.Length
      requires base == Wrap(start + at, data.Length) && base + |src| <= data.Length
      modifies data
      ensures var r := Rotated(old(data[..]), start);
              Rotated(data[..], start) == r[..at] + src + r[at + |src|..]
    {
      Memcpy(data, base, src);
      RegionWrite(old(data[..]), data[..], start, at, src);
    }

    static method Memcpy(dst: array<byte>, at: nat, src: seq<byte>)
      requires at + |src| <= dst.Length
      modifies dst
      ensures dst[..] == old(dst[..at]) + src + old(dst[at + |src|..])
    {
      for i := 0 to |src|
        invariant dst[..] == old(dst[..at]) + src[..i] + old(dst[at + i..])
      {
        dst[at + i] := src[i];
      }
    }

    /** Whatever was stored behind the queue becomes part of it. */
    method AdvanceWritePosition(offset: nat)
      requires Valid() && len + offset <= data.Length
      modifies this`len, this`rxBytes
      ensures Valid() && len == old(len) + offset
      ensures Contents() == Rotated(data[..], head)[..old(len) + offset]
      ensures View() == old(View()).Append(Rotated(data[..], head)[old(len)..old(len) + offset])
    {
      assert Contents() + Rotated(data[..], head)[len..len + offset] == Rotated(data[..], head)[..len + offset];
      len := len + offset;
      rxBytes := rxBytes + offset;
    }

    method AdvanceReadPosition(offset: nat)
      requires Valid() && offset <= len
      modifies this`head, this`len, this`txBytes
      ensures Valid() && View() == old(View()).Drop(offset)
    {
      MaskIsWrap(head + offset, data.Length);
      DropRing(data[..], head, len, offset);
      head := And(head + offset, sizeMask);
      len := len - offset;
      txBytes := txBytes + offset;
      assert Contents() == old(Contents())[offset..];
    }

    /** Stores src behind the queued bytes; the common end of buffer_push and buffer_recv. */
    method Fill(limit: nat, src: seq<byte>)
      requires Valid() && |src| <= data.Length - len && (limit == 0 || limit == |src|)
      modifies this`len, this`rxBytes, data
      ensures Valid() && View() == old(View()).Append(src)
    {
      ghost var room := if limit == 0 then data.Length - len else Min(data.Length - len, limit);
      var iov := SetupWriteIov(limit);
      Scatter(iov, src, Wrap(head + len, data.Length), room);
      AppendRing(old(data[..]), data[..], head, len, src);
      SplitAt(Rotated(data[..], head), old(Contents()), src);
      AdvanceWritePosition(|src|);
    }

    /** buffer_recv: the kernel fills the free regions in order. */
    method Recv(r: RecvResult) returns (bytes: int)
      requires Valid()
      requires r.Received? ==> 0 < |r.bytes| <= Room()
      modifies this, data
      ensures Valid() && data == old(data) && View() == old(View()).Recv(r)
      ensures bytes == match r case Received(s) => |s| case EndOfStream => 0 case _ => -1
    {
      if len == 0 {
        head := 0;
      }
      assert View() == old(View()).Rewound();
      match r {
        case Received(s) =>
          Fill(0, s);
          bytes := |s|;
        case EndOfStream => bytes := 0;
        case _ => bytes := -1;
      }
    }

    /** buffer_send: the kernel takes a prefix of the readable regions, handed out as `sent`. */
    method Send(r: SendResult) returns (bytes: int, sent: seq<byte>)
      requires Valid()
      requires r.Sent? ==> r.count <= len
      modifies this`head, this`len, this`txBytes
      ensures Valid() && View() == old(View()).Send(r)
      ensures bytes == if r.Sent? then r.count else -1
      ensures sent == if r.Sent? then old(Contents())[..r.count] else []
    {
      bytes, sent := -1, [];
      if r.Sent? {
        var all := Peek(0);
        bytes, sent := r.count, all[..r.count];
        AdvanceReadPosition(r.count);
      }
    }

    /** buffer_peek: copies the oldest bytes, region by region. */
    method Peek(limit: nat) returns (dst: seq<byte>)
      requires Valid()
      ensures dst == Contents()[..View().Limited(len, limit)]
    {
      ghost var n := if limit == 0 then len else Min(limit, len);
      var iov := SetupReadIov(limit);
      dst := [];
      for k := 0 to |iov|
        invariant |dst| == Before(iov, k, n)
        invariant dst == Rotated(data[..], head)[..|dst|]
      {
        dst := PeekEntry(iov, k, dst, n);
      }
      assert Rotated(data[..], head)[..n] == Contents()[..n];
    }

    method PeekEntry(iov: seq<Region>, k: nat, dst: seq<byte>, ghost n: nat) returns (dst': seq<byte>)
      requires Valid() && n <= len && Covers(iov, head, n, data.Length)
      requires k < |iov| && |dst| == Before(iov, k, n) && dst == Rotated(data[..], head)[..|dst|]
      ensures |dst'| == Before(iov, k + 1, n) && dst' == Rotated(data[..], head)[..|dst'|]
    {
      assert OffsetOf(iov, |dst|) == iov[k].base;
      RegionRead(data[..], head, |dst|, iov[k].len);
      PrefixGrows(Rotated(data[..], head), |dst|, iov[k].len);
      dst' := dst + data[iov[k].base..iov[k].base + iov[k].len];
    }

    method Pop(limit: nat) returns (dst: seq<byte>)
      requires Valid()
      modifies this`head, this`len, this`txBytes
      ensures Valid() && View() == old(View()).Pop(limit)
      ensures dst == old(Contents())[..old(View()).Limited(old(len), limit)]
    {
      dst := Peek(limit);
      if |dst| > 0 {
        AdvanceReadPosition(|dst|);
      }
    }

    /**
     * buffer_push of n bytes out of the memory that begins at the source pointer. With n
     * 0 the copy takes as many bytes as there is room for, and leaves that memory if it
     * has fewer: then nothing is promised of the buffer.
     */
    method Push(memory: seq<byte>, n: nat) returns (appended: nat, overread: bool)
      requires Valid() && n <= |memory|
      modifies this, data
      ensures Valid() && data == old(data)
      ensures overread <==> n == 0 && old(Room()) > |memory|
      ensures !overread ==> View() == old(View()).PushLimited(memory, n)
      ensures !overread ==> appended == if old(Room()) < n then 0 else old(View()).Limited(old(Room()), n)
    {
      appended, overread := 0, false;
      if len == 0 {
        head := 0;
      }
      assert View() == old(View()).Rewound();
      if Size() - len < n {
        return;
      }
      var count := if n == 0 then Size() - len else n;
      if count > |memory| {
        overread := true;
        return;
      }
      Fill(n, memory[..count]);
      appended := count;
    }

    /**
     * buffer_coalesce: the region handed out lies inside the storage exactly when
     * the queued bytes did not wrap, and then it is the whole queue.
     */
    method Coalesce() returns (region: Region)
      requires Valid()
      modifies this, data
      ensures Valid() && data == old(data) && View() == old(View()).Coalesce()
      ensures region.len == len
      ensures region.base + region.len <= data.Length <==> old(head + len) <= data.Length
      ensures old(head + len) <= data.Length ==>
                data[region.base..region.base + region.len] == Contents()
    {
      MaskIsWrap(head + len, data.Length);
      var tail := And(head + len, sizeMask);
      if tail <= head {
        region := Region(head, len);
        if head + len <= data.Length { Contiguous(data[..], head, len); }
      } else {
        Repack();
        region := Region(0, len);
        Contiguous(data[..], 0, len);
      }
    }

    /** Everything is taken out and put back, which moves it to offset 0. */
    method Repack()
      requires Valid() && len > 0
      modifies this, data
      ensures Valid() && data == old(data) && head == 0
      ensures View() == old(View()).(head := 0, rx := old(rxBytes + len), tx := old(txBytes + len))
    {
      var n := len;
      var temp := Pop(n);
      assert len == 0 && temp == old(Contents());
      var pushed, overread := Push(temp, n);
      assert head == 0 && len == n;
      assert Contents() == [] + temp;
    }

    method Resize(newSize: nat) returns (result: int)
      requires Valid()
      modifies this
      ensures Valid() && (result == old(View()).Resize(newSize).0)
      ensures View() == old(View()).Resize(newSize).1
      ensures data == old(data) || fresh(data)
    {
      if NotPowerOf2(newSize) {
        return -4;
      }
      if newSize > BUFFER_MAX_SIZE {
        return -3;
      }
      if newSize < len {
        return -1;
      }
      var storage := new byte[newSize];
      var content := Peek(newSize);
      Memcpy(storage, 0, content);
      data := storage;
      sizeMask := newSize - 1;
      head := 0;
      result := len;
    }
  }

  /** A push with length 0 of fewer bytes than a new buffer holds: 0 bytes pushed into a buffer of 4, say. */
  method ShortPushOverreads(size: nat, memory: seq<byte>) returns (overread: bool)
    requires !NotPowerOf2(size) && |memory| < size
    ensures overread
  {
    var buffer := new Buffer(size);
    var appended;
    appended, overread := buffer.Push(memory, 0);
  }
}
