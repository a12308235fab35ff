/**
 * The settings dialog: the tabs edit a buffer of pending changes, which is
 * merged over the settings and written to the store on save, and dropped
 * when the dialog closes.
 */
module SettingsDialog {
  import opened Wrappers
  import opened SettingsStore

  /** A `Partial<SettingsState>`: each top-level key may be present or not. */
  datatype Changes = Changes(general: Option<General>, servers: Option<seq<McpServer>>)

  const NoChanges := Changes(None, None)

  predicate IsEmpty(c: Changes)
  {
    c.general.None? && c.servers.None?
  }

  /** `{...prev, ...next}`: a key present in `next` wins. */
  function Merge(prev: Changes, next: Changes): (r: Changes)
    ensures r.general == (if next.general.Some? then next.general else prev.general)
    ensures r.servers == (if next.servers.Some? then next.servers else prev.servers)
  {
    Changes(if next.general.Some? then next.general else prev.general,
            if next.servers.Some? then next.servers else prev.servers)
  }

  /** `{...settings, ...changes}`. */
  function Apply(s: Settings, c: Changes): (r: Settings)
    ensures r.general == GetOr(c.general, s.general)
    ensures r.servers == GetOr(c.servers, s.servers)
  {
    Settings(GetOr(c.general, s.general), GetOr(c.servers, s.servers))
  }

  /** Applying nothing changes nothing. */
  lemma ApplyNothing(s: Settings)
    ensures Apply(s, NoChanges) == s
  {
  }

  /** Applying two batches one after the other is applying their merge. */
  lemma ApplyMerge(s: Settings, c1: Changes, c2: Changes)
    ensures Apply(Apply(s, c1), c2) == Apply(s, Merge(c1, c2))
  {
  }

  /** Merging is associative, so the order in which tab edits are grouped does not matter. */
  lemma MergeAssociative(a: Changes, b: Changes, c: Changes)
    ensures Merge(Merge(a, b), c) == Merge(a, Merge(b, c))
  {
  }

  class Dialog {
    var open: bool
    var settings: Settings
    var changes: Changes
    const store: Store
    const isReplay: bool

    /** First render: closed, a snapshot of the store, no changes. */
    constructor(store: Store, isReplay: bool)
      ensures this.store == store && this.isReplay == isReplay
      ensures !open && settings == store.state && changes == NoChanges
    {
      this.store := store;
      this.isReplay := isReplay;
      open := false;
      settings := store.state;
      changes := NoChanges;
    }

    /** What every tab is given to display. */
    function MergedSettings(): Settings
      reads this
    {
      Apply(settings, changes)
    }

    /** A tab reports edits; they are kept only while the dialog is open. */
    method HandleTabChange(newChanges: Changes)
      modifies this
      ensures open == old(open) && settings == old(settings)
      ensures changes == (if open then Merge(old(changes), newChanges) else old(changes))
    {
      if open {
        changes := Merge(changes, newChanges);
      }
    }

    /**
     * `setOpen` followed by the effect on `open`: opening takes a fresh
     * snapshot of the store, closing drops the pending changes. Setting the
     * value it already has neither re-renders nor re-runs the effect.
     */
    method SetOpen(value: bool)
      modifies this
      ensures open == value
      ensures old(open) == value ==> settings == old(settings) && changes == old(changes)
      ensures old(open) != value && value ==> settings == store.state && changes == old(changes)
      ensures old(open) != value && !value ==> settings == old(settings) && changes == NoChanges
    {
      if open != value {
        open := value;
        if open {
          settings := store.state;
        } else {
          changes := NoChanges;
        }
      }
    }

    /** Save: apply and persist pending changes if there are any, then close. */
    method HandleSave()
      modifies this, store
      ensures !open && changes == NoChanges
      ensures !IsEmpty(old(changes)) ==>
                settings == Apply(old(settings), old(changes))
                && store.state == settings
                && store.stored == Some(Document(Serialize(settings)))
      ensures IsEmpty(old(changes)) ==>
                settings == old(settings) && store.state == old(store.state) && store.stored == old(store.stored)
    {
      if !IsEmpty(changes) {
        var newSettings := Apply(settings, changes);
        settings := newSettings;
        changes := NoChanges;
        store.ChangeSettings(newSettings);
        store.SaveSettings();
      }
      SetOpen(false);
    }

    /** In replay mode nothing is rendered; otherwise the tabs see the merged settings. */
    function Render(): (r: Option<Settings>)
      reads this
      ensures r.None? <==> isReplay
      ensures r.Some? ==> r.value == MergedSettings()
    {
      if isReplay then None else Some(MergedSettings())
    }
  }
}
