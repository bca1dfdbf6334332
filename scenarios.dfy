/** Clients of the actions: properties of action sequences and of the selector together with
    the switch action, proved from the actions' contracts alone. */
module Scenarios {
  import opened Wrappers
  import opened Seqs
  import opened TerminalService
  import opened TerminalActions

  /** Creating a terminal and then killing it gives back the instance list as it was; the
      panel is shown again after the kill only if older instances remain. */
  method CreateThenKill(svc: Service)
    requires svc.Valid()
    modifies svc
    ensures svc.Valid()
    ensures svc.instances == old(svc.instances)
    ensures |svc.log| == |old(svc.log)| + 4 + (if svc.instances != [] then 1 else 0)
    ensures svc.log[|old(svc.log)|].Created?
    ensures var h := svc.log[|old(svc.log)|].h;
      svc.log == old(svc.log) + [Created(h), SetActive(h), PanelShown(true), Disposed(h)]
                 + (if svc.instances != [] then [PanelShown(true)] else [])
  {
    ghost var before := svc.instances;
    CreateNewTerminal(svc);
    ghost var h := svc.instances[|before|];
    KillTerminal(svc);
    WithoutAppended(before, h);
  }

  /** Killing the only instance leaves no instance and no active one, and does not show the
      panel. */
  method KillOnlyInstance(svc: Service)
    requires svc.Valid() && |svc.instances| == 1 && svc.active.Some?
    modifies svc
    ensures svc.Valid()
    ensures svc.instances == [] && svc.active == None
    ensures svc.log == old(svc.log) + [Disposed(old(svc.instances)[0])]
  {
    KillTerminal(svc);
  }

  /** Pasting with no terminal creates one and pastes into it. */
  method PasteIntoEmptyPanel(svc: Service)
    requires svc.Valid() && svc.instances == []
    modifies svc
    ensures svc.Valid() && |svc.instances| == 1
    ensures svc.log == old(svc.log) + [Created(svc.instances[0]), Pasted(svc.instances[0])]
  {
    PasteIntoTerminal(svc);
  }

  /** Running with an empty selection in an editor holding `echo hi` sends `echo hi`, with a
      new line, to the active instance or to a new one. */
  method RunWholeBuffer(svc: Service, editor: Editor, osEol: string)
    requires svc.Valid()
    requires editor.value == "echo hi" && editor.selection.IsEmpty()
    modifies svc
    ensures svc.Valid() && svc.log != []
    ensures var last := svc.log[|svc.log| - 1];
      last.SentText? && last.h in svc.instances && last.text == "echo hi" && last.addNewLine
  {
    RunSelectedTextInTerminal(svc, editor, osEol);
  }

  /** Choosing option `k` of a selector that is in sync makes the instance at position `k`
      active, and once the selector has handled the resulting event it selects option `k`. */
  method ChooseOption(item: SwitchTerminalInstanceActionItem, k: nat)
    requires item.service.Valid() && item.InSync() && k < |item.options|
    modifies item.service`active, item.service`log, item`options, item`selected
    ensures item.service.Valid() && item.InSync()
    ensures item.service.instances == old(item.service.instances)
    ensures item.service.active == Some(item.service.instances[k])
    ensures item.service.log == old(item.service.log) + [SetActiveByIndex(k), PanelShown(true)]
    ensures item.selected == k
  {
    var svc := item.service;
    item.OptionSwitchesToItsPosition(k);
    SwitchTerminalInstance(svc, item.options[k]);
    item.UpdateItems();
    IndexOfDistinct(svc.instances, k);
  }

  /** Focusing while an instance is active changes nothing the selector shows, so a selector
      in sync stays in sync without an update. */
  method FocusKeepsSelectorInSync(item: SwitchTerminalInstanceActionItem)
    requires item.service.Valid() && item.InSync() && item.service.active.Some?
    modifies item.service
    ensures item.service.Valid() && item.InSync()
  {
    FocusTerminal(item.service);
  }
}
