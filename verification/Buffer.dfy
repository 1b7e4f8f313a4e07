/**
 The network buffer: a growing array with two indices that behaves as a byte queue, which can
 also take bytes back at its front.
 */
module Buffer {

  const CHEAP_PREPEND: nat := 8
  const INITIAL_SIZE: nat := 1024
  const EXTRA_SIZE: nat := 65536

  /** What `readv` answers: an error number, or the bytes it read. */
  datatype ReadResult = Failed(errno: int) | Received(bytes: seq<char>)

  /** `std::copy` within one array, to a lower position. */
  method CopyDown(a: array<char>, from: nat, to: nat, len: nat)
    requires to <= from && from + len <= a.Length
    modifies a
    ensures a[to..to + len] == old(a[from..from + len])
    ensures a[..to] == old(a[..to])
  {
    for i := 0 to len
      invariant a[to..to + i] == old(a[from..from + i])
      invariant forall k :: from + i <= k < a.Length ==> a[k] == old(a[k])
      invariant a[..to] == old(a[..to])
    {
      a[to + i] := a[from + i];
    }
  }

  /** `std::copy` of a byte string into an array. */
  method CopyInto(a: array<char>, to: nat, bytes: seq<char>)
    requires to + |bytes| <= a.Length
    modifies a
    ensures a[to..to + |bytes|] == bytes
    ensures a[..to] == old(a[..to]) && a[to + |bytes|..] == old(a[to + |bytes|..])
  {
    for i := 0 to |bytes|
      invariant a[to..to + i] == bytes[..i]
      invariant a[..to] == old(a[..to]) && a[to + i..] == old(a[to + i..])
    {
      a[to + i] := bytes[i];
    }
  }

  lemma SplitSlice(s: seq<char>, from: nat, at: nat, to: nat)
    requires from <= at <= to <= |s|
    ensures s[from..to] == s[from..at] + s[at..][..to - at]
  {
  }

  function Nuls(n: nat): (s: seq<char>)
    ensures |s| == n
  {
    seq(n, _ => '\0')
  }

  predicate AllNul(s: seq<char>) {
    forall i :: 0 <= i < |s| ==> s[i] == '\0'
  }

  /** The array that `shrink` makes. */
  function Shrunk(contents: seq<char>, reserve: nat): seq<char> {
    Nuls(CHEAP_PREPEND) + contents + Nuls(reserve)
  }

  /** What is read from the new array at the old indices is the old contents if and only if the reader was
      at the cheap prepend area or there is nothing but NUL to read. */
  lemma ShrunkKeepsExactly(contents: seq<char>, reader: nat, reserve: nat)
    requires reader <= CHEAP_PREPEND + reserve
    ensures Shrunk(contents, reserve)[reader..reader + |contents|] == contents <==> reader == CHEAP_PREPEND || AllNul(contents)
  {
    var shrunk := Shrunk(contents, reserve);
    var found := shrunk[reader..reader + |contents|];
    if found == contents {
      if reader > CHEAP_PREPEND {
        var i := |contents|;
        while i > 0
          invariant 0 <= i <= |contents| && forall k :: i <= k < |contents| ==> contents[k] == '\0'
        {
          i := i - 1;
          assert contents[i] == found[i] == shrunk[reader + i];
        }
      } else if reader < CHEAP_PREPEND {
        var i := 0;
        while i < |contents|
          invariant 0 <= i <= |contents| && forall k :: 0 <= k < i ==> contents[k] == '\0'
        {
          assert contents[i] == found[i] == shrunk[reader + i];
          i := i + 1;
        }
      }
    } else {
      assert AllNul(contents) ==> found == contents;
    }
  }

  /** One byte was read before: of the two that are left the first is lost. */
  lemma ShrinkLosesContents()
    ensures Shrunk("ab", 1)[CHEAP_PREPEND + 1..CHEAP_PREPEND + 3] == "b\0" != "ab"
  {
    assert Shrunk("ab", 1)[CHEAP_PREPEND + 1..CHEAP_PREPEND + 3][1] == Nuls(1)[0];
  }

  class Buffer {
    var data: array<char>
    var readerIndex: nat
    var writerIndex: nat

    ghost predicate Valid()
      reads this
    {
      readerIndex <= writerIndex <= data.Length && CHEAP_PREPEND <= data.Length
    }

    /** The queue that the buffer stands for. */
    ghost function Contents(): seq<char>
      requires Valid()
      reads this, data
    {
      data[readerIndex..writerIndex]
    }

    constructor ()
      ensures Valid() && fresh(data) && Contents() == []
      ensures WritableBytes() == INITIAL_SIZE && PrependableBytes() == CHEAP_PREPEND
    {
      data := new char[CHEAP_PREPEND + INITIAL_SIZE](_ => '\0');
      readerIndex := CHEAP_PREPEND;
      writerIndex := CHEAP_PREPEND;
    }

    function ReadableBytes(): nat
      requires Valid()
      reads this
    {
      writerIndex - readerIndex
    }

    function WritableBytes(): nat
      requires Valid()
      reads this
    {
      data.Length - writerIndex
    }

    function PrependableBytes(): nat
      reads this
    {
      readerIndex
    }

    method Retrieve(len: nat)
      requires Valid() && len <= ReadableBytes()
      modifies this`readerIndex
      ensures Valid() && Contents() == old(Contents()[len..])
    {
      readerIndex := readerIndex + len;
    }

    method RetrieveUntil(end: nat)
      requires Valid() && readerIndex <= end <= writerIndex
      modifies this`readerIndex
      ensures Valid() && Contents() == old(Contents()[end - readerIndex..])
    {
      Retrieve(end - readerIndex);
    }

    method RetrieveAll()
      requires Valid()
      modifies this`readerIndex, this`writerIndex
      ensures Valid() && Contents() == []
    {
      readerIndex := CHEAP_PREPEND;
      writerIndex := CHEAP_PREPEND;
    }

    method RetrieveAsString() returns (str: seq<char>)
      requires Valid()
      modifies this`readerIndex, this`writerIndex
      ensures Valid() && Contents() == [] && str == old(Contents())
    {
      str := data[readerIndex..writerIndex];
      RetrieveAll();
    }

    /** `vector::resize` to a greater size. */
    method Resize(size: nat)
      requires Valid() && data.Length <= size
      modifies this`data
      ensures Valid() && fresh(data) && data.Length == size
      ensures Contents() == old(Contents())
    {
      var bigger := new char[size](_ => '\0');
      CopyInto(bigger, 0, data[..]);
      assert forall k :: 0 <= k < data.Length ==> bigger[k] == bigger[0..data.Length][k] == data[k];
      data := bigger;
    }

    /** Called only when the writable bytes do not suffice; then the reader index is beyond the
        cheap prepend area whenever the contents are moved within the array. */
    method MakeSpace(len: nat)
      requires Valid() && WritableBytes() < len
      modifies this, data
      ensures Valid() && (data == old(data) || fresh(data))
      ensures Contents() == old(Contents()) && WritableBytes() >= len
      ensures readerIndex == old(readerIndex) || readerIndex == CHEAP_PREPEND < old(readerIndex)
      ensures data == old(data) <==> old(WritableBytes() + PrependableBytes()) >= len + CHEAP_PREPEND
      ensures data != old(data) ==> WritableBytes() == len
    {
      if WritableBytes() + PrependableBytes() < len + CHEAP_PREPEND {
        Resize(writerIndex + len);
      } else {
        assert CHEAP_PREPEND < readerIndex;
        var readable := ReadableBytes();
        CopyDown(data, readerIndex, CHEAP_PREPEND, readable);
        readerIndex := CHEAP_PREPEND;
        writerIndex := readerIndex + readable;
        assert readable == ReadableBytes();
      }
    }

    method EnsureWritableBytes(len: nat)
      requires Valid()
      modifies this, data
      ensures Valid() && (data == old(data) || fresh(data))
      ensures Contents() == old(Contents()) && WritableBytes() >= len
      ensures readerIndex == old(readerIndex) || readerIndex == CHEAP_PREPEND < old(readerIndex)
    {
      if WritableBytes() < len {
        MakeSpace(len);
      }
      assert WritableBytes() >= len;
    }

    method HasWritten(len: nat)
      requires Valid() && len <= WritableBytes()
      modifies this`writerIndex
      ensures Valid() && Contents() == old(Contents()) + data[old(writerIndex)..old(writerIndex) + len]
    {
      writerIndex := writerIndex + len;
    }

    /** Stores bytes behind the contents; they become contents when the writer index passes them. */
    method Store(bytes: seq<char>)
      requires Valid() && |bytes| <= WritableBytes()
      modifies data
      ensures Contents() == old(Contents()) && data[writerIndex..writerIndex + |bytes|] == bytes
    {
      CopyInto(data, writerIndex, bytes);
      assert data[readerIndex..writerIndex] == data[..writerIndex][readerIndex..];
    }

    method Append(bytes: seq<char>)
      requires Valid()
      modifies this, data
      ensures Valid() && (data == old(data) || fresh(data))
      ensures Contents() == old(Contents()) + bytes
    {
      EnsureWritableBytes(|bytes|);
      Store(bytes);
      HasWritten(|bytes|);
    }

    method Prepend(bytes: seq<char>)
      requires Valid() && |bytes| <= PrependableBytes()
      modifies this`readerIndex, data
      ensures Valid() && Contents() == bytes + old(Contents())
      ensures PrependableBytes() == old(PrependableBytes()) - |bytes|
    {
      ghost var contents, tail := Contents(), data[readerIndex..];
      readerIndex := readerIndex - |bytes|;
      CopyInto(data, readerIndex, bytes);
      assert data[readerIndex + |bytes|..] == tail;
      assert contents == tail[..|contents|];
      SplitSlice(data[..], readerIndex, readerIndex + |bytes|, writerIndex);
    }

    /** The indices are not reset. So the writer is left outside the array when it is too far up, and
        otherwise the contents survive exactly in the two cases below. */
    method Shrink(reserve: nat)
      requires Valid()
      modifies this`data
      ensures fresh(data) && data.Length == CHEAP_PREPEND + old(ReadableBytes()) + reserve
      ensures data[..] == Shrunk(old(Contents()), reserve)
      ensures Valid() <==> old(readerIndex) <= CHEAP_PREPEND + reserve
      ensures Valid() ==> (Contents() == old(Contents()) <==> old(readerIndex) == CHEAP_PREPEND || AllNul(old(Contents())))
    {
      var contents := data[readerIndex..writerIndex];
      var buf := new char[CHEAP_PREPEND + |contents| + reserve](_ => '\0');
      assert buf[..CHEAP_PREPEND] == Nuls(CHEAP_PREPEND) && buf[CHEAP_PREPEND + |contents|..] == Nuls(reserve);
      CopyInto(buf, CHEAP_PREPEND, contents);
      data := buf;
      assert data[..] == data[..CHEAP_PREPEND] + data[CHEAP_PREPEND..CHEAP_PREPEND + |contents|] + data[CHEAP_PREPEND + |contents|..];
      if readerIndex <= CHEAP_PREPEND + reserve {
        ShrunkKeepsExactly(contents, readerIndex, reserve);
        assert data[readerIndex..writerIndex] == data[..][readerIndex..writerIndex];
      }
    }

    /** The array is full of what was read; the rest goes behind it. */
    method FillAndAppend(ghost filled: seq<char>, extraBuf: seq<char>)
      requires Valid() && data[writerIndex..] == filled
      modifies this, data
      ensures Valid() && (data == old(data) || fresh(data))
      ensures Contents() == old(Contents()) + (filled + extraBuf)
    {
      writerIndex := data.Length;
      assert Contents() == old(Contents()) + filled;
      Append(extraBuf);
    }

    /** The scatter read: bytes beyond the writable part arrive in a second area and are appended. */
    method ReadFd(result: ReadResult) returns (n: int, savedErrno: int)
      requires Valid()
      requires result.Received? ==> |result.bytes| <= WritableBytes() + EXTRA_SIZE
      modifies this, data
      ensures Valid() && (data == old(data) || fresh(data))
      ensures result.Failed? ==> n == -1 && savedErrno == result.errno && Contents() == old(Contents())
      ensures result.Received? ==> n == |result.bytes| && Contents() == old(Contents()) + result.bytes
    {
      savedErrno := 0;
      var writable := WritableBytes();
      match result
      case Failed(errno) =>
        n := -1;
        savedErrno := errno;
      case Received(bytes) =>
        n := |bytes|;
        if n <= writable {
          Store(bytes);
          HasWritten(n);
        } else {
          Store(bytes[..writable]);
          FillAndAppend(bytes[..writable], bytes[writable..]);
          assert bytes == bytes[..writable] + bytes[writable..];
        }
    }
  }

  // ----- Any sequence of operations -----

  datatype Op =
    | AppendOp(bytes: seq<char>) | PrependOp(bytes: seq<char>) | ReadOp(bytes: seq<char>)
    | RetrieveOp(len: nat) | RetrieveAllOp

  /** The byte queue that the operations are about, and what each of them takes out of it. */
  function AfterOp(queue: seq<char>, op: Op): seq<char> {
    match op
    case AppendOp(bytes) => queue + bytes
    case PrependOp(bytes) => bytes + queue
    case ReadOp(bytes) => queue + bytes
    case RetrieveOp(len) => if len <= |queue| then queue[len..] else []
    case RetrieveAllOp => []
  }

  function OutputOf(queue: seq<char>, op: Op): seq<char> {
    match op
    case RetrieveOp(len) => if len <= |queue| then queue[..len] else queue
    case RetrieveAllOp => queue
    case _ => []
  }

  function AfterOps(queue: seq<char>, ops: seq<Op>): seq<char> {
    if ops == [] then queue else AfterOp(AfterOps(queue, ops[..|ops| - 1]), ops[|ops| - 1])
  }

  function OutputsOf(queue: seq<char>, ops: seq<Op>): seq<char> {
    if ops == [] then [] else OutputsOf(queue, ops[..|ops| - 1]) + OutputOf(AfterOps(queue, ops[..|ops| - 1]), ops[|ops| - 1])
  }

  function InputOf(op: Op): seq<char> {
    if op.RetrieveOp? || op.RetrieveAllOp? then [] else op.bytes
  }

  function Input(ops: seq<Op>): seq<char> {
    if ops == [] then [] else Input(ops[..|ops| - 1]) + InputOf(ops[|ops| - 1])
  }

  function Count(bytes: seq<char>, c: char): nat {
    multiset(bytes)[c]
  }

  lemma CountAdds(a: seq<char>, b: seq<char>, c: char)
    ensures Count(a + b, c) == Count(a, c) + Count(b, c) && Count([], c) == 0
  {
  }

  /** Nothing is lost and nothing is duplicated, whatever the operations are. */
  lemma {:induction false} BytesAreConserved(queue: seq<char>, ops: seq<Op>, c: char)
    ensures Count(OutputsOf(queue, ops), c) + Count(AfterOps(queue, ops), c) == Count(queue, c) + Count(Input(ops), c)
    decreases |ops|
  {
    hide Count;
    if ops == [] {
      CountAdds([], [], c);
    } else {
      var init, op := ops[..|ops| - 1], ops[|ops| - 1];
      BytesAreConserved(queue, init, c);
      OneOpConserves(AfterOps(queue, init), op, c);
      CountAdds(OutputsOf(queue, init), OutputOf(AfterOps(queue, init), op), c);
      CountAdds(Input(init), InputOf(op), c);
    }
  }

  lemma OneOpKeepsOrder(queue: seq<char>, op: Op)
    requires !op.PrependOp?
    ensures OutputOf(queue, op) + AfterOp(queue, op) == queue + InputOf(op)
  {
  }

  lemma OneOpConserves(queue: seq<char>, op: Op, c: char)
    ensures Count(OutputOf(queue, op), c) + Count(AfterOp(queue, op), c) == Count(queue, c) + Count(InputOf(op), c)
  {
    hide Count;
    CountAdds(OutputOf(queue, op), AfterOp(queue, op), c);
    CountAdds(queue, InputOf(op), c);
    CountAdds(InputOf(op), queue, c);
    if !op.PrependOp? {
      OneOpKeepsOrder(queue, op);
    }
  }

  /** Without prepending, bytes leave in the order in which they came. */
  lemma {:induction false} FirstInFirstOut(queue: seq<char>, ops: seq<Op>)
    requires forall op :: op in ops ==> !op.PrependOp?
    ensures OutputsOf(queue, ops) + AfterOps(queue, ops) == queue + Input(ops)
    decreases |ops|
  {
    if ops != [] {
      var init, op := ops[..|ops| - 1], ops[|ops| - 1];
      FirstInFirstOut(queue, init);
      OneOpKeepsOrder(AfterOps(queue, init), op);
      Reassociate(OutputsOf(queue, init), OutputOf(AfterOps(queue, init), op), AfterOps(queue, ops), AfterOps(queue, init),
                  InputOf(op), queue, Input(init));
    }
  }

  lemma Reassociate(output: seq<char>, taken: seq<char>, contents: seq<char>, before: seq<char>, added: seq<char>,
                    initial: seq<char>, input: seq<char>)
    requires taken + contents == before + added && output + before == initial + input
    ensures (output + taken) + contents == initial + (input + added)
  {
    assert (output + taken) + contents == output + (taken + contents);
    assert output + (before + added) == (output + before) + added;
    assert (initial + input) + added == initial + (input + added);
  }

  predicate Allowed(op: Op, buffer: Buffer)
    requires buffer.Valid()
    reads buffer
  {
    match op
    case RetrieveOp(len) => len <= buffer.ReadableBytes()
    case PrependOp(bytes) => |bytes| <= buffer.PrependableBytes()
    case ReadOp(bytes) => |bytes| <= buffer.WritableBytes() + EXTRA_SIZE
    case _ => true
  }

  method Perform(buffer: Buffer, op: Op) returns (output: seq<char>)
    requires buffer.Valid() && Allowed(op, buffer)
    modifies buffer, buffer.data
    ensures buffer.Valid() && (buffer.data == old(buffer.data) || fresh(buffer.data))
    ensures buffer.Contents() == AfterOp(old(buffer.Contents()), op) && output == OutputOf(old(buffer.Contents()), op)
  {
    output := [];
    match op
    case AppendOp(bytes) =>
      buffer.Append(bytes);
    case PrependOp(bytes) =>
      buffer.Prepend(bytes);
    case ReadOp(bytes) =>
      var _, _ := buffer.ReadFd(Received(bytes));
    case RetrieveOp(len) =>
      output := buffer.data[buffer.readerIndex..buffer.readerIndex + len];
      assert output == buffer.Contents()[..len] == OutputOf(buffer.Contents(), op);
      buffer.Retrieve(len);
    case RetrieveAllOp =>
      output := buffer.RetrieveAsString();
  }

  /** Over any sequence of operations the array and its indices behave as the byte queue. The run ends
      early only at an operation that its state does not allow. */
  method Replay(buffer: Buffer, ops: seq<Op>) returns (performed: nat, output: seq<char>)
    requires buffer.Valid()
    modifies buffer, buffer.data
    ensures buffer.Valid() && performed <= |ops|
    ensures buffer.Contents() == AfterOps(old(buffer.Contents()), ops[..performed])
    ensures output == OutputsOf(old(buffer.Contents()), ops[..performed])
    ensures performed < |ops| ==> !Allowed(ops[performed], buffer)
  {
    performed, output := 0, [];
    while performed < |ops|
      invariant performed <= |ops| && buffer.Valid()
      invariant buffer.data == old(buffer.data) || fresh(buffer.data)
      invariant buffer.Contents() == AfterOps(old(buffer.Contents()), ops[..performed])
      invariant output == OutputsOf(old(buffer.Contents()), ops[..performed])
    {
      var op := ops[performed];
      if !Allowed(op, buffer) {
        return;
      }
      var taken := Perform(buffer, op);
      assert ops[..performed + 1][..performed] == ops[..performed];
      output := output + taken;
      performed := performed + 1;
    }
  }
}
