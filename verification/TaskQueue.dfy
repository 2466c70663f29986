/** The two-buffer task queue: one buffer to enqueue into, one to dequeue from by moving an index, swapped when the
    read buffer runs empty. While tasks are inside, it keeps its owner alive. */
module TaskQueue {
  import opened Options
  import opened TaskService

  class TaskReadBuffer {
    var buffer: seq<Task>
    var index: nat

    ghost predicate Valid()
      reads this
    {
      index <= |buffer|
    }

    function Unread(): (unread: seq<Task>)
      requires Valid()
      reads this
    {
      buffer[index..]
    }

    constructor ()
      ensures Valid() && Unread() == []
    {
      buffer, index := [], 0;
    }

    predicate IsEmpty()
      requires Valid()
      reads this
      ensures IsEmpty() <==> Unread() == []
    {
      index == |buffer|
    }

    method TryDequeue() returns (item: Option<Task>)
      requires Valid()
      modifies this
      ensures Valid()
      ensures old(Unread()) == [] ==> item == None && Unread() == []
      ensures old(Unread()) != [] ==> item == Some(old(Unread())[0]) && Unread() == old(Unread())[1..]
    {
      if index < |buffer| {
        item := Some(buffer[index]);
        index := index + 1;
      } else {
        item := None;
      }
    }

    /** Trades the unread part for another buffer. */
    method SwapBuffer(other: seq<Task>) returns (mine: seq<Task>)
      requires Valid()
      modifies this
      ensures Valid() && Unread() == other && mine == old(Unread())
    {
      mine := buffer[index..];
      index := 0;
      buffer := other;
    }
  }

  class TaskQueue {
    var writeBuffer: seq<Task>
    const readBuffer: TaskReadBuffer
    var hasOwner: bool  // m_strongOwnerPtr is not null

    ghost predicate Valid()
      reads this, readBuffer
    {
      readBuffer.Valid() && (hasOwner ==> Contents() != [])
    }

    /** The queue as a sequence: what is unread, then what was written. */
    ghost function Contents(): seq<Task>
      requires readBuffer.Valid()
      reads this, readBuffer
    {
      readBuffer.Unread() + writeBuffer
    }

    /** The owner cannot die with tasks inside. */
    ghost predicate OwnerKept()
      requires Valid()
      reads this, readBuffer
    {
      Contents() != [] ==> hasOwner
    }

    constructor ()
      ensures Valid() && fresh(readBuffer) && Contents() == [] && OwnerKept()
    {
      writeBuffer := [];
      readBuffer := new TaskReadBuffer();
      hasOwner := false;
    }

    predicate IsEmpty()
      requires readBuffer.Valid()
      reads this, readBuffer
      ensures IsEmpty() <==> Contents() == []
    {
      readBuffer.IsEmpty() && writeBuffer == []
    }

    function Size(): (n: nat)
      requires Valid()
      reads this, readBuffer
      ensures n == |Contents()|
    {
      |readBuffer.buffer| - readBuffer.index + |writeBuffer|
    }

    /** ownerAlive: whether GetStrongPtr of the owner would succeed. */
    method Enqueue(task: Task, ownerAlive: bool)
      requires Valid()
      modifies this
      ensures Valid() && Contents() == old(Contents()) + [task]
      ensures hasOwner == if old(Contents()) == [] then ownerAlive else old(hasOwner)
      ensures old(OwnerKept()) && ownerAlive ==> OwnerKept()
    {
      var queueWasEmpty := IsEmpty();
      writeBuffer := writeBuffer + [task];
      assert readBuffer.Unread() + writeBuffer == old(Contents()) + [task];
      if queueWasEmpty {
        hasOwner := ownerAlive;
      }
    }

    method TryDequeue() returns (task: Option<Task>)
      requires Valid()
      modifies this, readBuffer
      ensures Valid()
      ensures old(Contents()) == [] ==> task == None && Contents() == []
      ensures old(Contents()) != [] ==> task == Some(old(Contents())[0]) && Contents() == old(Contents())[1..]
      ensures hasOwner == (old(hasOwner) && Contents() != [])
      ensures old(OwnerKept()) ==> OwnerKept()
    {
      if readBuffer.IsEmpty() && writeBuffer != [] {
        writeBuffer := readBuffer.SwapBuffer(writeBuffer);
        assert Contents() == old(Contents());
      }
      task := readBuffer.TryDequeue();
      if task.Some? && IsEmpty() {
        hasOwner := false;
      }
    }

    method DequeueAll(tasks: seq<Task>) returns (any: bool, all: seq<Task>)
      requires Valid()
      modifies this, readBuffer
      ensures Valid() && Contents() == [] && OwnerKept() && !hasOwner
      ensures any == (old(Contents()) != []) && all == tasks + old(Contents())
    {
      all := tasks;
      if IsEmpty() {
        return false, all;
      }
      if !readBuffer.IsEmpty() {
        var unread := readBuffer.SwapBuffer([]);
        all := all + unread;
      }
      if writeBuffer != [] {
        all := all + writeBuffer;
        writeBuffer := [];
      }
      assert tasks + (old(readBuffer.Unread()) + old(writeBuffer)) ==
             tasks + old(readBuffer.Unread()) + old(writeBuffer);
      hasOwner := false;
      any := true;
    }
  }
}
