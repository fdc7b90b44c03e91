/**
 * The part of the C heap that holds character buffers. Every buffer has an id;
 * a buffer is either a string literal in static storage or a heap allocation.
 * The ghost sets record which heap buffers are live and which have been
 * released, so that the verifier checks every `free` is applied to a live
 * heap buffer: no buffer is released twice and no literal is ever released.
 */
module Heap {

  /** The identity of a character buffer (the value of a `char*`). */
  type BufferId = nat

  /** Every buffer of `ps` was created once `n` buffers existed. */
  ghost predicate CreatedFrom(ps: set<BufferId>, n: nat)
  {
    forall p :: p in ps ==> n <= p
  }

  /** Every buffer of `ps` is among the first `n` buffers created. */
  ghost predicate CreatedBefore(ps: set<BufferId>, n: nat)
  {
    forall p :: p in ps ==> p < n
  }

  class Memory {
    /**
     * What each buffer the program knows of holds, without its terminating
     * NUL; buffer `p` is `contents[p]`, and the next buffer gets id `|contents|`.
     */
    var contents: seq<string>
    /** Heap buffers that are allocated and not yet released. */
    ghost var live: set<BufferId>
    /** Heap buffers that have been released. */
    ghost var released: set<BufferId>
    /** String literals in static storage; they are never released. */
    ghost var literals: set<BufferId>

    ghost predicate Valid()
      reads this
    {
      && live !! released && live !! literals && released !! literals
      && CreatedBefore(live + released + literals, |contents|)
    }

    /** A buffer whose contents may still be read: a live heap buffer or a literal. */
    ghost predicate Readable(p: BufferId)
      reads this
    {
      p in live || p in literals
    }

    /** The state change of one allocation of a fresh heap buffer holding `s`. */
    twostate predicate Allocated(p: BufferId, s: string)
      reads this
    {
      && p == |old(contents)|
      && contents == old(contents) + [s]
      && live == old(live) + {p}
      && released == old(released)
      && literals == old(literals)
    }

    /** The state change of one `free(p)`. */
    twostate predicate Released(p: BufferId)
      reads this
    {
      && p in old(live)
      && live == old(live) - {p}
      && released == old(released) + {p}
      && contents == old(contents)
      && literals == old(literals)
    }

    /**
     * The state change of releasing every buffer of `ps` (none, or the one a
     * variable owns), written without a case split.
     */
    twostate predicate ReleasedAll(ps: set<BufferId>)
      reads this
    {
      && ps <= old(live)
      && live == old(live) - ps
      && released == old(released) + ps
      && contents == old(contents)
      && literals == old(literals)
    }

    /** Buffers created before keep their contents: later buffers are only added. */
    twostate predicate Extends()
      reads this
    {
      old(contents) <= contents
    }

    constructor ()
      ensures Valid()
      ensures contents == [] && live == {} && released == {} && literals == {}
    {
      contents := [];
      live, released, literals := {}, {}, {};
    }

    /** A string literal of the generated C program, placed in static storage. */
    method Literal(s: string) returns (p: BufferId)
      requires Valid()
      modifies this
      ensures Valid()
      ensures p == |old(contents)| && contents == old(contents) + [s]
      ensures literals == old(literals) + {p} && live == old(live) && released == old(released)
    {
      p := |contents|;
      contents := contents + [s];
      literals := literals + {p};
    }

    /** `malloc` of a buffer that is then filled with `s` (by `strcpy`, `strcat` or `memcpy`). */
    method Allocate(s: string) returns (p: BufferId)
      requires Valid()
      modifies this
      ensures Valid() && Allocated(p, s)
    {
      p := |contents|;
      contents := contents + [s];
      live := live + {p};
    }

    /** `strdup(src)`: a fresh heap buffer holding a copy of a readable buffer. */
    method Duplicate(src: BufferId) returns (p: BufferId)
      requires Valid() && Readable(src)
      modifies this
      ensures Valid() && Allocated(p, old(contents[src]))
    {
      p := Allocate(contents[src]);
    }

    /** `free(p)`: only a live heap buffer may be released. */
    method Release(p: BufferId)
      requires Valid() && p in live
      modifies this
      ensures Valid() && Released(p)
    {
      live := live - {p};
      released := released + {p};
    }
  }
}
