// DeploymentStatusesReport as the source has it: a slice header over a shared array, rewritten,
// grown and truncated in place. Each method is proved against the value-level spec functions.
module StatusReport {
  import opened Wrappers
  import opened Statuses
  import opened Selection

  class DeploymentStatusesReport {
    const deploymentName: string
    // A Go slice: the array it points into (whose length is the capacity) and its own length.
    var data: array<DeploymentStatus>
    var len: nat

    predicate Valid()
      reads this
    {
      len <= data.Length
    }

    function Contents(): History
      requires Valid()
      reads this, data
    {
      data[..len]
    }

    function Value(): Report
      requires Valid()
      reads this, data
    {
      Report(deploymentName, Contents())
    }

    // Copies the header only: the new report shares the array.
    constructor (name: string, elements: array<DeploymentStatus>, length: nat)
      requires length <= elements.Length
      ensures Valid() && deploymentName == name && data == elements && len == length
    {
      deploymentName := name;
      data := elements;
      len := length;
    }

    // The position of the status that LastStatus points at; None for nil.
    method LastStatus() returns (last: Option<nat>)
      requires Valid()
      ensures last.None? <==> Contents() == []
      ensures last.Some? ==> last.value == |Contents()| - 1 && data[last.value] == Last(Contents())
    {
      if len == 0 {
        return None;
      }
      return Some(len - 1);
    }

    // Go's append: in place while there is capacity, otherwise into a larger copy.
    method Grow(status: DeploymentStatus)
      requires Valid()
      modifies this, data
      ensures Valid() && (data == old(data) || fresh(data))
      ensures Contents() == old(Contents()) + [status]
      ensures old(data)[..old(len)] == old(Contents())
    {
      if len < data.Length {
        data[len] := status;
      } else {
        var larger := new DeploymentStatus[2 * len + 1];
        for i := 0 to len
          invariant fresh(larger) && data == old(data) && len == old(len)
          invariant larger[..i] == data[..i]
          invariant data[..len] == old(data[..len])
        {
          larger[i] := data[i];
        }
        larger[len] := status;
        data := larger;
      }
      len := len + 1;
    }

    // The opening step of AppendStatus: rewrite a Pending tail of the same version, or grow.
    method RewriteOrGrow(status: DeploymentStatus)
      requires Valid()
      modifies this, data
      ensures Valid() && (data == old(data) || fresh(data))
      ensures var h := old(Contents());
              Contents() == if EndsPending(h, status.version) then Rewrite(h, status) else h + [status]
      ensures old(data)[..old(len)] == Rewrite(old(Contents()), status)
    {
      var last := LastStatus();
      if last.None? {
        Grow(status);
      } else if data[last.value].version == status.version && data[last.value].state == Pending {
        var start := if status.state == Healthy then status.start else data[last.value].start;
        data[last.value] := DeploymentStatus(data[last.value].version, status.state, start);
      } else {
        Grow(status);
      }
    }

    // Its closing step: the new tail goes when the entry before it says the same.
    method TruncateRepeat(status: DeploymentStatus)
      requires Valid()
      modifies this`len
      ensures Valid() && Contents() == DropRepeat(old(Contents()), status)
    {
      if len >= 2 && data[len - 2].version == status.version && data[len - 2].state == status.state {
        len := len - 1;
        assert Contents() == old(Contents())[..len];
      }
    }

    // The report gets the folded history; whoever still holds the old header sees its Pending tail
    // overwritten.
    method AppendStatus(status: DeploymentStatus)
      requires Valid()
      modifies this, data
      ensures Valid() && (data == old(data) || fresh(data))
      ensures Contents() == Append(old(Contents()), status)
      ensures old(data)[..old(len)] == Rewrite(old(Contents()), status)
    {
      hide Rewrite, EndsPending, DropRepeat;
      RewriteOrGrow(status);
      TruncateRepeat(status);
    }

    method VersionHealthyDuration(version: string, now: int) returns (duration: int)
      requires Valid()
      ensures duration == HealthyDuration(Contents(), version, now)
    {
      ghost var h := Contents();
      for i := 0 to len
        invariant forall j :: 0 <= j < i ==> h[j].version != version
      {
        if data[i].version != version {
          continue;
        }
        var until := now;
        assert FirstIndex(h, version) == i;
        for j := i to len
          invariant forall k :: i <= k < j && h[k].version == version ==> h[k].state.Healthy?
          invariant until == Until(h[..j], i, now)
        {
          assert h[..j + 1][..j] == h[..j];
          if data[j].state != Healthy {
            if data[j].version == data[i].version {
              assert h[j].version == version && !h[j].state.Healthy?;
              return 0;
            } else {
              until := data[j].start;
            }
          }
        }
        assert h[..len] == h;
        assert h[i].version == version;
        return until - data[i].start;
      }
      return 0;
    }
  }
}
