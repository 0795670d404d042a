/** What the pipeline holds by reference and changes in place: the open session's points, the months
    whose partitions exist, and the day of the last pack measurement. */
module PipelineMemory {
  import opened Collections
  import opened Segmenter

  class Points {
    var items: seq<Sample>

    constructor (items: seq<Sample>)
      ensures this.items == items
    {
      this.items := items;
    }

    method Push(s: Sample)
      modifies this
      ensures items == old(items) + [s]
    {
      items := items + [s];
    }

    method Copy() returns (copy: Points)
      ensures fresh(copy) && copy.items == items
    {
      copy := new Points(items);
    }
  }

  class Months {
    var keys: set<int>

    constructor (keys: set<int>)
      ensures this.keys == keys
    {
      this.keys := keys;
    }

    method Add(month: int)
      modifies this
      ensures keys == old(keys) + {month}
    {
      keys := keys + {month};
    }

    method Clear()
      modifies this
      ensures keys == {}
    {
      keys := {};
    }

    method Copy() returns (copy: Months)
      ensures fresh(copy) && copy.keys == keys
    {
      copy := new Months(keys);
    }
  }

  class Days {
    var last: Option<int>

    constructor (last: Option<int>)
      ensures this.last == last
    {
      this.last := last;
    }

    method Put(day: int)
      modifies this
      ensures last == Some(day)
    {
      last := Some(day);
    }

    method Clear()
      modifies this
      ensures last == None
    {
      last := None;
    }

    method Copy() returns (copy: Days)
      ensures fresh(copy) && copy.last == last
    {
      copy := new Days(last);
    }
  }
}
