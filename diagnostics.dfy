/**
 * The part of `System.Diagnostics.Activity` the modelled code reads and
 * writes: its ids, parent id, tags and baggage. `Activity.Current` is never
 * looked up implicitly; callers pass the activity they mean.
 */
module Diagnostics {
  import opened Wrappers

  /** A key/value pair of `Activity.Tags` or `Activity.Baggage`. */
  type Tag = (string, string)

  class Activity {
    const operationName: string
    /** `Id` and `RootId`, assigned when the activity is started (outside this model). */
    var id: Option<string>
    var rootId: Option<string>
    var parentId: Option<string>
    /** `Tags` and `Baggage` in enumeration order. */
    var tags: seq<Tag>
    var baggage: seq<Tag>

    /** `new Activity(operationName)`: not started, no parent, no tags, no baggage. */
    constructor (operationName: string)
      ensures this.operationName == operationName
      ensures id == None && rootId == None && parentId == None
      ensures tags == [] && baggage == []
    {
      this.operationName := operationName;
      id, rootId, parentId := None, None, None;
      tags, baggage := [], [];
    }

    /** `SetParentId`: takes effect only on an activity without a parent, and only for a non-empty id. */
    method SetParentId(parentId: string)
      modifies this`parentId
      ensures this.parentId ==
        if old(this.parentId).None? && parentId != "" then Some(parentId) else old(this.parentId)
    {
      if this.parentId.None? && parentId != "" {
        this.parentId := Some(parentId);
      }
    }

    /** `AddTag`: the tag is added after those already present. */
    method AddTag(key: string, value: string)
      modifies this`tags
      ensures tags == old(tags) + [(key, value)]
    {
      tags := tags + [(key, value)];
    }
  }
}
