/** Instance.pendingRPCs as the Go slice it is (kafig-go/instance.go): a backing
    array that is truncated, aliased by the launched batch, and overwritten by
    later appends. Contents() is the abstract queue. */
module CallQueue {
  import opened Rpc

  class Slice {
    var backing: array<Call>
    var len: nat

    ghost predicate Valid()
      reads this
    {
      len <= backing.Length
    }

    ghost function Contents(): seq<Call>
      requires Valid()
      reads this, backing
    {
      backing[..len]
    }

    constructor ()
      ensures Valid() && Contents() == [] && fresh(backing)
    {
      backing := new Call[0];
      len := 0;
    }

    /** `append`: in place while there is room, else into a larger array. */
    method Append(c: Call)
      requires Valid()
      modifies this, backing
      ensures Valid() && Contents() == old(Contents()) + [c]
      ensures backing == old(backing) || fresh(backing)
    {
      if len == backing.Length {
        var grown := new Call[2 * len + 1](_ => c);
        forall i | 0 <= i < len {
          grown[i] := backing[i];
        }
        backing := grown;
      }
      backing[len] := c;
      len := len + 1;
    }

    /** `pendingRPCs[:0]`: the backing array and its calls stay where they are. */
    method Truncate()
      requires Valid()
      modifies this`len
      ensures Valid() && Contents() == [] && len == 0
    {
      len := 0;
    }
  }
}
