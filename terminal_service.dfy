/** The terminal service the actions run against, reduced to what they rely on: the ordered
    list of instance handles, the optional active instance, the instances' titles, and a
    record of every call an action makes on the service or on one of its instances.

    The service's own rules for which instance becomes active after `createInstance`, after
    a disposal and on next/previous navigation belong to the service implementation, which
    is not part of this model: the bodies below choose freely among the states the invariant
    allows, so that no action can depend on a particular rule. */
module TerminalService {
  import opened Wrappers
  import opened Seqs
  import opened JsParseInt

  /** An opaque handle of one terminal instance. */
  type Id = nat

  /** A call on the service or on an instance, in the order it was made. */
  datatype Call =
    | Created(h: Id)
    | SetActive(h: Id)
    | SetActiveByIndex(index: int)
    | SetActiveToNext
    | SetActiveToPrevious
    | PanelShown(focus: bool)
    | PanelToggled
    | Disposed(h: Id)
    | CopiedSelection(h: Id)
    | Pasted(h: Id)
    | SentText(h: Id, text: string, addNewLine: bool)
    | ScrolledDown(h: Id)
    | ScrolledUp(h: Id)

  /** The selector label of the instance at 0-based `position`: `"<position + 1>: <title>"`. */
  function InstanceLabel(position: nat, title: string): string {
    Decimal(position + 1) + ": " + title
  }

  /** The labels of instances with the given titles, in instance order. */
  function Labels(titles: seq<string>): (r: seq<string>)
    ensures |r| == |titles|
    ensures forall k :: 0 <= k < |r| ==> r[k] == InstanceLabel(k, titles[k])
  {
    seq(|titles|, k requires 0 <= k < |titles| => InstanceLabel(k, titles[k]))
  }

  /** The titles of the given instances, in instance order. */
  function TitlesOf(ids: seq<Id>, titles: map<Id, string>): (r: seq<string>)
    requires forall h :: h in ids ==> h in titles
    ensures |r| == |ids|
    ensures forall k :: 0 <= k < |ids| ==> r[k] == titles[ids[k]]
  {
    seq(|ids|, k requires 0 <= k < |ids| => titles[ids[k]])
  }

  class Service {
    var instances: seq<Id>
    var active: Option<Id>
    var titles: map<Id, string>
    var nextId: Id
    var log: seq<Call>

    /** No handle twice, the active instance is a live one, every live handle has a title
        and was handed out before `nextId`. */
    ghost predicate Valid()
      reads this
    {
      NoDuplicates(instances)
      && (active.Some? ==> active.value in instances)
      && (forall h :: h in instances ==> h < nextId && h in titles)
    }

    constructor ()
      ensures Valid()
      ensures instances == [] && active == None && log == []
    {
      instances, active, titles, nextId, log := [], None, map[], 0, [];
    }

    /** `getInstanceLabels()`. */
    function InstanceLabels(): (r: seq<string>)
      reads this
      requires Valid()
      ensures |r| == |instances|
      ensures forall k :: 0 <= k < |instances| ==> r[k] == InstanceLabel(k, titles[instances[k]])
    {
      Labels(TitlesOf(instances, titles))
    }

    /** `activeTerminalInstanceIndex`: the position of the active instance, -1 when there
        is none. */
    function ActiveInstanceIndex(): (r: int)
      reads this
      requires Valid()
      ensures r == -1 <==> active.None?
      ensures 0 <= r ==> r < |instances| && active == Some(instances[r])
    {
      if active.None? then -1 else IndexOf(instances, active.value)
    }

    /** `getActiveInstance()`. */
    method GetActiveInstance() returns (r: Option<Id>)
      ensures r == active
    {
      r := active;
    }

    /** `createInstance()`: appends a new handle to the list and returns it. */
    method CreateInstance() returns (h: Id)
      requires Valid()
      modifies this
      ensures Valid()
      ensures h !in old(instances) && instances == old(instances) + [h]
      ensures forall g :: g in old(instances) ==> titles[g] == old(titles)[g]
      ensures log == old(log) + [Created(h)]
    {
      h := nextId;
      assert h !in instances;
      NoDuplicatesSnoc(instances, h);
      var title: string :| true;
      var becomesActive: bool :| true;
      nextId := nextId + 1;
      instances := instances + [h];
      titles := titles[h := title];
      if becomesActive {
        active := Some(h);
      }
      log := log + [Created(h)];
    }

    /** `setActiveInstance(h)`. */
    method SetActiveInstance(h: Id)
      requires Valid() && h in instances
      modifies this`active, this`log
      ensures Valid()
      ensures active == Some(h)
      ensures log == old(log) + [SetActive(h)]
    {
      active := Some(h);
      log := log + [SetActive(h)];
    }

    /** `setActiveInstanceByIndex(i)`: an index inside the list selects that instance; what
        an index outside it does is the service's business. */
    method SetActiveInstanceByIndex(i: int)
      requires Valid()
      modifies this`active, this`log
      ensures Valid()
      ensures 0 <= i < |instances| ==> active == Some(instances[i])
      ensures log == old(log) + [SetActiveByIndex(i)]
    {
      if 0 <= i < |instances| {
        active := Some(instances[i]);
      }
      log := log + [SetActiveByIndex(i)];
    }

    /** Moves the active pointer to some live instance; which one is the service's rule. */
    method MoveActive()
      requires Valid()
      modifies this`active
      ensures Valid()
    {
      if instances != [] {
        var k :| 0 <= k < |instances|;
        active := Some(instances[k]);
      }
    }

    /** `setActiveInstanceToNext()`. */
    method SetActiveInstanceToNext()
      requires Valid()
      modifies this`active, this`log
      ensures Valid()
      ensures log == old(log) + [SetActiveToNext]
    {
      MoveActive();
      log := log + [SetActiveToNext];
    }

    /** `setActiveInstanceToPrevious()`. */
    method SetActiveInstanceToPrevious()
      requires Valid()
      modifies this`active, this`log
      ensures Valid()
      ensures log == old(log) + [SetActiveToPrevious]
    {
      MoveActive();
      log := log + [SetActiveToPrevious];
    }

    /** `showPanel(focus)`; the panel's asynchronous completion is not modelled. */
    method ShowPanel(focus: bool)
      modifies this`log
      ensures log == old(log) + [PanelShown(focus)]
    {
      log := log + [PanelShown(focus)];
    }

    /** `togglePanel()`. */
    method TogglePanel()
      modifies this`log
      ensures log == old(log) + [PanelToggled]
    {
      log := log + [PanelToggled];
    }

    /** `dispose()` on the instance `h`: removes it from the list; the active pointer then
        names some live instance or none, by the service's rule. */
    method DisposeInstance(h: Id)
      requires Valid() && h in instances
      modifies this`instances, this`active, this`log
      ensures Valid()
      ensures instances == Without(old(instances), h)
      ensures |instances| == |old(instances)| - 1
      ensures log == old(log) + [Disposed(h)]
    {
      WithoutDistinct(instances, h);
      ghost var before := instances;
      instances := Without(instances, h);
      forall g | g in instances ensures g in before {
        WithoutSubset(before, h, g);
      }
      var next: Option<Id> :| next.None? || next.value in instances;
      active := next;
      log := log + [Disposed(h)];
    }

    /** `copySelection()` on the instance `h`. */
    method CopySelection(h: Id)
      requires h in instances
      modifies this`log
      ensures log == old(log) + [CopiedSelection(h)]
    {
      log := log + [CopiedSelection(h)];
    }

    /** `paste()` on the instance `h`. */
    method Paste(h: Id)
      requires h in instances
      modifies this`log
      ensures log == old(log) + [Pasted(h)]
    {
      log := log + [Pasted(h)];
    }

    /** `sendText(text, addNewLine)` on the instance `h`. */
    method SendText(h: Id, text: string, addNewLine: bool)
      requires h in instances
      modifies this`log
      ensures log == old(log) + [SentText(h, text, addNewLine)]
    {
      log := log + [SentText(h, text, addNewLine)];
    }

    /** `scrollDown()` on the instance `h`. */
    method ScrollDown(h: Id)
      requires h in instances
      modifies this`log
      ensures log == old(log) + [ScrolledDown(h)]
    {
      log := log + [ScrolledDown(h)];
    }

    /** `scrollUp()` on the instance `h`. */
    method ScrollUp(h: Id)
      requires h in instances
      modifies this`log
      ensures log == old(log) + [ScrolledUp(h)]
    {
      log := log + [ScrolledUp(h)];
    }

    /** An instance's title changes (the source of the title-changed event). */
    method SetTitle(h: Id, title: string)
      requires Valid() && h in instances
      modifies this`titles
      ensures Valid()
      ensures titles == old(titles)[h := title]
    {
      titles := titles[h := title];
    }
  }
}
