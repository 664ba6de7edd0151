/** Descriptor tables of processes, and the owning handle that closes a descriptor exactly once. */
module Descriptors {

  /** What a descriptor refers to: something inherited, an end of a pipe, or a file opened for a redirection. */
  datatype File = Inherited(n: nat) | PipeRead(i: nat) | PipeWrite(i: nat) | Opened(stage: nat, stream: nat)

  type Table = map<int, File>

  /** `fd` is the lowest descriptor that `t` does not use. */
  predicate Lowest(t: Table, fd: int) {
    fd >= 0 && fd !in t && forall k | 0 <= k < fd :: k in t
  }

  /**
    A process: its descriptor table, and the vector of pipes in its memory. Each entry is the pair of descriptors
    that the two owning handles of a pipe hold; -1 is a handle that owns nothing.
   */
  class Process {
    var table: Table
    var pipes: seq<(int, int)>

    constructor (table: Table, pipes: seq<(int, int)>)
      ensures this.table == table && this.pipes == pipes
    {
      this.table, this.pipes := table, pipes;
    }

    /** The kernel hands out the lowest descriptor that is not in use. */
    method Open(file: File) returns (fd: int)
      modifies this`table
      ensures Lowest(old(table), fd) && table == old(table)[fd := file]
    {
      fd := 0;
      ghost var above := table.Keys;
      while fd in table
        invariant fd >= 0 && forall k | 0 <= k < fd :: k in table
        invariant forall k | k in table && k >= fd :: k in above
        decreases above
      {
        above := above - {fd};
        fd := fd + 1;
      }
      table := table[fd := file];
    }

    method Pipe(i: nat) returns (r: int, w: int)
      modifies this`table
      ensures Lowest(old(table), r) && Lowest(old(table)[r := PipeRead(i)], w)
      ensures table == old(table)[r := PipeRead(i)][w := PipeWrite(i)]
    {
      r := Open(PipeRead(i));
      w := Open(PipeWrite(i));
    }

    method Dup2(from: int, to: int)
      requires from in table
      modifies this`table
      ensures table == old(table)[to := old(table)[from]]
    {
      if from == to {
        return;
      }
      table := table[to := table[from]];
    }

    /** Closing demands an open descriptor: a second close of the same one would not meet it. */
    method Close(fd: int)
      requires fd in table
      modifies this`table
      ensures table == old(table) - {fd}
    {
      table := table - {fd};
    }

    /** A child starts with copies of the table and of the memory. */
    method Fork() returns (child: Process)
      ensures fresh(child) && child.table == table && child.pipes == pipes
    {
      child := new Process(table, pipes);
    }
  }

  /** A handle that owns at most one descriptor of a process; -1 stands for none. */
  class UniqueFd {
    const process: Process
    var fd: int

    constructor (process: Process, fd: int)
      ensures this.process == process && this.fd == fd
    {
      this.process, this.fd := process, fd;
    }

    /** Gives the descriptor up without closing it. */
    method Release() returns (current: int)
      modifies this
      ensures current == old(fd) && fd == -1
    {
      current := fd;
      fd := -1;
    }

    /** Closes what is owned, if anything, and takes over `newFd`. */
    method Reset(newFd: int)
      requires fd >= 0 ==> fd in process.table
      modifies this, process`table
      ensures fd == newFd
      ensures process.table == if old(fd) >= 0 then old(process.table) - {old(fd)} else old(process.table)
    {
      if fd >= 0 {
        process.Close(fd);
      }
      fd := newFd;
    }

    /** Move assignment: the descriptor changes hands, and only the one given up is closed. */
    method MoveFrom(other: UniqueFd)
      requires other.process == process
      requires fd >= 0 ==> fd in process.table
      modifies this, other, process`table
      ensures fd == old(other.fd) && (other != this ==> other.fd == -1)
      ensures process.table ==
              if other != this && old(fd) >= 0 then old(process.table) - {old(fd)} else old(process.table)
    {
      if other != this {
        var taken := other.Release();
        Reset(taken);
      }
    }
  }
}
