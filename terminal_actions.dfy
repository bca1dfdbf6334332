/** The terminal command actions and the instance selector of
    src/vs/workbench/parts/terminal/electron-browser/terminalActions.ts. Each action's `run`
    is a method over the service; its postcondition lists exactly the calls it makes, in
    order, and what it leaves unchanged. */
module TerminalActions {
  import opened Wrappers
  import opened Seqs
  import opened JsParseInt
  import opened TerminalService

  // ---------------------------------------------------------------------------
  // Switching by selector label

  /** `item.split(':')[0]`: the text before the first colon, or all of it. */
  function BeforeFirstColon(item: string): (r: string)
    ensures r <= item && ':' !in r
    ensures |r| < |item| ==> item[|r|] == ':'
  {
    if item == [] || item[0] == ':' then [] else [item[0]] + BeforeFirstColon(item[1..])
  }

  /** `parseInt(item.split(':')[0], 10) - 1`; `None` where parseInt gives NaN. */
  function SwitchIndex(item: string): (r: Option<int>)
    ensures r.None? <==> ParseInt(BeforeFirstColon(item)).None?
    ensures r.Some? ==> ParseInt(BeforeFirstColon(item)) == Some(r.value + 1)
  {
    match ParseInt(BeforeFirstColon(item))
    case None => None
    case Some(n) => Some(n - 1)
  }

  lemma {:induction false} BeforeFirstColonOfJoin(p: string, q: string)
    requires ':' !in p
    ensures BeforeFirstColon(p + [':'] + q) == p
  {
    if p != [] {
      assert (p + [':'] + q)[1..] == p[1..] + [':'] + q;
      BeforeFirstColonOfJoin(p[1..], q);
    }
  }

  /** The index the switch action computes from a selector label is the label's 0-based
      position, whatever the title holds (later colons included). */
  lemma SwitchIndexOfLabel(position: nat, title: string)
    ensures SwitchIndex(InstanceLabel(position, title)) == Some(position)
  {
    var d := Decimal(position + 1);
    assert InstanceLabel(position, title) == d + [':'] + (" " + title);
    assert ':' !in d;
    BeforeFirstColonOfJoin(d, " " + title);
    ParseIntOfDecimal(position + 1, []);
    assert d + [] == d;
  }

  /** The example of the switch action: `"2: bash"` selects index 1. */
  lemma SwitchIndexOfBash()
    ensures SwitchIndex("2: bash") == Some(1)
  {
    assert Decimal(2) == "2";
    assert InstanceLabel(1, "bash") == "2: bash";
    SwitchIndexOfLabel(1, "bash");
  }

  /** Every label the service lists parses back to its own position. */
  lemma LabelsSwitchToTheirPosition(titles: seq<string>, k: nat)
    requires k < |titles|
    ensures SwitchIndex(Labels(titles)[k]) == Some(k)
  {
    SwitchIndexOfLabel(k, titles[k]);
  }

  // ---------------------------------------------------------------------------
  // The text that "run selected text" sends

  datatype EndOfLinePreference = LF | CRLF

  /** `os.EOL === '\n' ? EndOfLinePreference.LF : EndOfLinePreference.CRLF`. */
  function EndOfLineFor(osEol: string): (p: EndOfLinePreference)
    ensures p == LF <==> osEol == "\n"
  {
    if osEol == "\n" then LF else CRLF
  }

  datatype Position = Position(line: nat, column: nat)

  datatype Selection = Selection(start: Position, end: Position) {
    /** `selection.isEmpty()`: the selection starts where it ends. */
    predicate IsEmpty() {
      start == end
    }
  }

  /** The focused code editor: its whole text (`getValue()`), its selection, and the text of
      that selection rendered with a given line ending (`getModel().getValueInRange`). */
  datatype Editor = Editor(value: string, selection: Selection, rangeText: EndOfLinePreference -> string)

  /** The text sent for execution: the whole buffer when nothing is selected, otherwise the
      selected range with the host's line ending. */
  function TextToRun(editor: Editor, osEol: string): (text: string)
    ensures editor.selection.IsEmpty() ==> text == editor.value
    ensures !editor.selection.IsEmpty() && osEol == "\n" ==> text == editor.rangeText(LF)
    ensures !editor.selection.IsEmpty() && osEol != "\n" ==> text == editor.rangeText(CRLF)
  {
    if editor.selection.IsEmpty() then editor.value
    else editor.rangeText(EndOfLineFor(osEol))
  }

  // ---------------------------------------------------------------------------
  // The actions

  /** ToggleTerminalAction.run: only toggles the panel. */
  method ToggleTerminal(svc: Service)
    modifies svc`log
    ensures svc.log == old(svc.log) + [PanelToggled]
  {
    svc.TogglePanel();
  }

  /** KillTerminalAction.run. */
  method KillTerminal(svc: Service)
    requires svc.Valid()
    modifies svc`instances, svc`active, svc`log
    ensures svc.Valid()
    ensures old(svc.active).None? ==>
      svc.instances == old(svc.instances) && svc.active == None && svc.log == old(svc.log)
    ensures old(svc.active).Some? ==>
      var h := old(svc.active).value;
      && svc.instances == Without(old(svc.instances), h)
      && h !in svc.instances
      && |svc.instances| == |old(svc.instances)| - 1
      && svc.log == old(svc.log) + [Disposed(h)] + (if svc.instances != [] then [PanelShown(true)] else [])
  {
    var terminalInstance := svc.GetActiveInstance();
    if terminalInstance.Some? {
      // the source asks the service for the active instance a second time
      var current := svc.GetActiveInstance();
      svc.DisposeInstance(current.value);
      if |svc.instances| > 0 {
        svc.ShowPanel(true);
      }
    }
  }

  /** CopyTerminalSelectionAction.run. */
  method CopyTerminalSelection(svc: Service)
    requires svc.Valid()
    modifies svc`log
    ensures svc.instances == old(svc.instances) && svc.active == old(svc.active)
    ensures svc.log == old(svc.log) + (if svc.active.Some? then [CopiedSelection(svc.active.value)] else [])
  {
    var terminalInstance := svc.GetActiveInstance();
    if terminalInstance.Some? {
      svc.CopySelection(terminalInstance.value);
    }
  }

  /** CreateNewTerminalAction.run. */
  method CreateNewTerminal(svc: Service)
    requires svc.Valid()
    modifies svc
    ensures svc.Valid()
    ensures forall g :: g in old(svc.instances) ==> g in svc.titles && svc.titles[g] == old(svc.titles)[g]
    ensures |svc.instances| == |old(svc.instances)| + 1
    ensures var h := svc.instances[|old(svc.instances)|];
      && h !in old(svc.instances)
      && svc.instances == old(svc.instances) + [h]
      && svc.active == Some(h)
      && svc.log == old(svc.log) + [Created(h), SetActive(h), PanelShown(true)]
  {
    var h := svc.CreateInstance();
    svc.SetActiveInstance(h);
    svc.ShowPanel(true);
  }

  /** FocusTerminalAction.run. */
  method FocusTerminal(svc: Service)
    requires svc.Valid()
    modifies svc
    ensures svc.Valid() && svc.active.Some?
    ensures forall g :: g in old(svc.instances) ==> g in svc.titles && svc.titles[g] == old(svc.titles)[g]
    ensures old(svc.active).Some? ==>
      && svc.titles == old(svc.titles)
      && svc.instances == old(svc.instances)
      && svc.active == old(svc.active)
      && svc.log == old(svc.log) + [SetActive(svc.active.value), PanelShown(true)]
    ensures old(svc.active).None? ==>
      && |svc.instances| == |old(svc.instances)| + 1
      && var h := svc.instances[|old(svc.instances)|];
      && h !in old(svc.instances)
      && svc.instances == old(svc.instances) + [h]
      && svc.active == Some(h)
      && svc.log == old(svc.log) + [Created(h), SetActive(h), PanelShown(true)]
  {
    var terminalInstance := svc.GetActiveInstance();
    if terminalInstance.None? {
      var h := svc.CreateInstance();
      terminalInstance := Some(h);
    }
    svc.SetActiveInstance(terminalInstance.value);
    svc.ShowPanel(true);
  }

  /** FocusNextTerminalAction.run; where the pointer lands is the service's rule. */
  method FocusNextTerminal(svc: Service)
    requires svc.Valid()
    modifies svc`active, svc`log
    ensures svc.Valid() && svc.instances == old(svc.instances)
    ensures svc.log == old(svc.log) + [SetActiveToNext, PanelShown(true)]
  {
    svc.SetActiveInstanceToNext();
    svc.ShowPanel(true);
  }

  /** FocusPreviousTerminalAction.run; where the pointer lands is the service's rule. */
  method FocusPreviousTerminal(svc: Service)
    requires svc.Valid()
    modifies svc`active, svc`log
    ensures svc.Valid() && svc.instances == old(svc.instances)
    ensures svc.log == old(svc.log) + [SetActiveToPrevious, PanelShown(true)]
  {
    svc.SetActiveInstanceToPrevious();
    svc.ShowPanel(true);
  }

  /** TerminalPasteAction.run: pastes into the active instance, or into a new one when there
      is none, without making it active or showing the panel. */
  method PasteIntoTerminal(svc: Service)
    requires svc.Valid()
    modifies svc
    ensures svc.Valid()
    ensures forall g :: g in old(svc.instances) ==> g in svc.titles && svc.titles[g] == old(svc.titles)[g]
    ensures old(svc.active).Some? ==>
      && svc.titles == old(svc.titles)
      && svc.instances == old(svc.instances)
      && svc.active == old(svc.active)
      && svc.log == old(svc.log) + [Pasted(old(svc.active).value)]
    ensures old(svc.active).None? ==>
      && |svc.instances| == |old(svc.instances)| + 1
      && var h := svc.instances[|old(svc.instances)|];
      && h !in old(svc.instances)
      && svc.instances == old(svc.instances) + [h]
      && svc.log == old(svc.log) + [Created(h), Pasted(h)]
  {
    var terminalInstance := svc.GetActiveInstance();
    if terminalInstance.None? {
      var h := svc.CreateInstance();
      terminalInstance := Some(h);
    }
    svc.Paste(terminalInstance.value);
  }

  /** RunSelectedTextInTerminalAction.run, given the focused editor and `os.EOL`. */
  method RunSelectedTextInTerminal(svc: Service, editor: Editor, osEol: string)
    requires svc.Valid()
    modifies svc
    ensures svc.Valid()
    ensures forall g :: g in old(svc.instances) ==> g in svc.titles && svc.titles[g] == old(svc.titles)[g]
    ensures old(svc.active).Some? ==>
      && svc.titles == old(svc.titles)
      && svc.instances == old(svc.instances)
      && svc.active == old(svc.active)
      && svc.log == old(svc.log) + [SentText(old(svc.active).value, TextToRun(editor, osEol), true)]
    ensures old(svc.active).None? ==>
      && |svc.instances| == |old(svc.instances)| + 1
      && var h := svc.instances[|old(svc.instances)|];
      && h !in old(svc.instances)
      && svc.instances == old(svc.instances) + [h]
      && svc.log == old(svc.log) + [Created(h), SentText(h, TextToRun(editor, osEol), true)]
  {
    var terminalInstance := svc.GetActiveInstance();
    if terminalInstance.None? {
      var h := svc.CreateInstance();
      terminalInstance := Some(h);
    }
    var text: string;
    if editor.selection.IsEmpty() {
      text := editor.value;
    } else {
      var endOfLinePreference := EndOfLineFor(osEol);
      text := editor.rangeText(endOfLinePreference);
    }
    svc.SendText(terminalInstance.value, text, true);
  }

  /** SwitchTerminalInstanceAction.run. A label without a leading number makes parseInt give
      NaN, which the source does not handle; such labels are excluded. */
  method SwitchTerminalInstance(svc: Service, item: string)
    requires svc.Valid() && SwitchIndex(item).Some?
    modifies svc`active, svc`log
    ensures svc.Valid() && svc.instances == old(svc.instances)
    ensures var i := SwitchIndex(item).value;
      && (0 <= i < |svc.instances| ==> svc.active == Some(svc.instances[i]))
      && svc.log == old(svc.log) + [SetActiveByIndex(i), PanelShown(true)]
  {
    var selectedTerminalIndex := SwitchIndex(item).value;
    svc.SetActiveInstanceByIndex(selectedTerminalIndex);
    svc.ShowPanel(true);
  }

  /** ScrollDownTerminalAction.run. */
  method ScrollDownTerminal(svc: Service)
    requires svc.Valid()
    modifies svc`log
    ensures svc.instances == old(svc.instances) && svc.active == old(svc.active)
    ensures svc.log == old(svc.log) + (if svc.active.Some? then [ScrolledDown(svc.active.value)] else [])
  {
    var terminalInstance := svc.GetActiveInstance();
    if terminalInstance.Some? {
      svc.ScrollDown(terminalInstance.value);
    }
  }

  /** ScrollUpTerminalAction.run. */
  method ScrollUpTerminal(svc: Service)
    requires svc.Valid()
    modifies svc`log
    ensures svc.instances == old(svc.instances) && svc.active == old(svc.active)
    ensures svc.log == old(svc.log) + (if svc.active.Some? then [ScrolledUp(svc.active.value)] else [])
  {
    var terminalInstance := svc.GetActiveInstance();
    if terminalInstance.Some? {
      svc.ScrollUp(terminalInstance.value);
    }
  }

  // ---------------------------------------------------------------------------
  // The instance selector

  /** The three service events the selector subscribes to. */
  datatype ServiceEvent = InstancesChanged | ActiveInstanceChanged | InstanceTitleChanged

  /** SwitchTerminalInstanceActionItem: a drop-down whose options are the service's
      instance labels and whose selected index is the active instance's position. */
  class SwitchTerminalInstanceActionItem {
    const service: Service
    var options: seq<string>
    var selected: int
    /** The subscriptions held until the item is disposed. */
    var toDispose: seq<ServiceEvent>

    /** The options and the selection show the service's current state. */
    ghost predicate InSync()
      reads this, service
      requires service.Valid()
      ensures InSync() ==> |options| == |service.instances|
      ensures InSync() ==> (selected == -1 <==> service.active.None?)
      ensures InSync() && 0 <= selected ==> selected < |service.instances| && service.active == Some(service.instances[selected])
    {
      options == service.InstanceLabels() && selected == service.ActiveInstanceIndex()
    }

    constructor (svc: Service)
      requires svc.Valid()
      ensures service == svc && InSync()
      ensures toDispose == [InstancesChanged, ActiveInstanceChanged, InstanceTitleChanged]
    {
      service := svc;
      options := svc.InstanceLabels();
      selected := svc.ActiveInstanceIndex();
      toDispose := [];
      toDispose := toDispose + [InstancesChanged];
      toDispose := toDispose + [ActiveInstanceChanged];
      toDispose := toDispose + [InstanceTitleChanged];
    }

    /** `_updateItems`, the handler of all three events. */
    method UpdateItems()
      requires service.Valid()
      modifies this`options, this`selected
      ensures InSync()
    {
      options := service.InstanceLabels();
      selected := service.ActiveInstanceIndex();
    }

    /** Choosing option `k` names the instance at position `k`. */
    lemma OptionSwitchesToItsPosition(k: nat)
      requires service.Valid() && InSync() && k < |options|
      ensures SwitchIndex(options[k]) == Some(k)
    {
      LabelsSwitchToTheirPosition(TitlesOf(service.instances, service.titles), k);
    }
  }
}
