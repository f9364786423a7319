/**
 * The journal editor page: loading an entry when the route names one,
 * `handleSave` with its `||` defaults, `handleDelete`, and the rule that
 * disables the save button.
 *
 * The route's `id` is `""` when absent (both are falsy). A fresh id and
 * the current time are parameters. Toasts and navigations are recorded
 * as logs.
 *
 * `isNew` holds only when the route id is literally `new`. The
 * application's own new-entry page is the static route `/journal/new`
 * (src/App.tsx:37), which has no `:id` parameter and shadows
 * `/journal/:id` for that path, so it builds the page with route id
 * `""`: `isNew` is false there. `NewEntryPage` states what that page then
 * does.
 */
module JournalEditor {
  import opened Wrappers
  import opened Text
  import opened Storage

  const NewRouteId: string := "new"
  const UntitledTitle: string := "无标题"
  const SavedToastTitle: string := "保存成功"
  const DeletedToastTitle: string := "日记已删除"
  const JournalListPath: string := "/journal"

  /** The entry the effect loads: only for a truthy id other than `new`, and only when it is stored. */
  function Loaded(store: LocalStore, routeId: string): (j: Option<JournalEntry>)
    reads store
    ensures routeId == NewRouteId || routeId == "" ==> j.None?
    ensures routeId != NewRouteId && routeId != "" ==> j == store.GetJournal(routeId)
  {
    if routeId != NewRouteId && routeId != "" then store.GetJournal(routeId) else None
  }

  /**
   * The `journalEntry` literal of `handleSave`: the loaded entry's id,
   * creation time and messages when it has them, a fresh id and `now`
   * otherwise, the title or `无标题`, and `updatedAt = now`.
   */
  function EntryToSave(journal: Option<JournalEntry>, title: string, content: string,
                       freshId: string, now: string): (e: JournalEntry)
    ensures e.title == (if title == "" then UntitledTitle else title) && e.content == content
    ensures e.updatedAt == now
    ensures journal.None? ==> e.id == freshId && e.createdAt == now && e.messages == []
    ensures journal.Some? ==> e.messages == journal.value.messages
    ensures journal.Some? && journal.value.id != "" ==> e.id == journal.value.id
    ensures journal.Some? && journal.value.id == "" ==> e.id == freshId
    ensures journal.Some? && journal.value.createdAt != "" ==> e.createdAt == journal.value.createdAt
    ensures journal.Some? && journal.value.createdAt == "" ==> e.createdAt == now
  {
    match journal
    case None => JournalEntry(freshId, OrElse(title, UntitledTitle), content, now, now, [])
    case Some(j) =>
      JournalEntry(OrElse(j.id, freshId), OrElse(title, UntitledTitle), content, OrElse(j.createdAt, now), now, j.messages)
  }

  /** The save button's `disabled` expression: saving is blocked exactly when the content is white space only. */
  predicate SaveDisabled(content: string)
    ensures SaveDisabled(content) <==> Blank(content)
  {
    TrimEmptyIffBlank(content);
    Trim(content) == ""
  }

  /**
   * Saving an entry that was loaded from storage, saved again with its
   * own title and content, changes only its update time.
   */
  lemma ResaveChangesOnlyUpdateTime(j: JournalEntry, freshId: string, now: string)
    requires j.id != "" && j.title != "" && j.createdAt != ""
    ensures EntryToSave(Some(j), j.title, j.content, freshId, now) == j.(updatedAt := now)
  {
  }

  /**
   * Saving the saved entry again with the same title, content and time
   * gives the same entry: its id, creation time and title are no longer
   * empty, so no default applies a second time.
   */
  lemma SaveIdempotent(journal: Option<JournalEntry>, title: string, content: string,
                       freshId: string, now: string, laterId: string)
    requires freshId != "" && now != ""
    ensures var e := EntryToSave(journal, title, content, freshId, now);
      EntryToSave(Some(e), title, content, laterId, now) == e
  {
  }

  class JournalEditorPage {
    const store: LocalStore
    const routeId: string
    const isNew: bool
    var title: string
    var content: string
    var journal: Option<JournalEntry>
    var toasts: seq<string>
    var navigations: seq<string>

    /** The first render and its effect: load the entry named by the route, if any. */
    constructor (store: LocalStore, routeId: string)
      ensures this.store == store && this.routeId == routeId && isNew == (routeId == NewRouteId)
      ensures journal == Loaded(store, routeId)
      ensures journal.Some? ==> title == journal.value.title && content == journal.value.content
      ensures journal.None? ==> title == "" && content == ""
      ensures toasts == [] && navigations == []
    {
      this.store := store;
      this.routeId := routeId;
      isNew := routeId == NewRouteId;
      title := "";
      content := "";
      journal := None;
      toasts := [];
      navigations := [];
      if routeId != NewRouteId && routeId != "" {
        var existing := store.GetJournal(routeId);
        if existing.Some? {
          journal := existing;
          title := existing.value.title;
          content := existing.value.content;
        }
      }
    }

    /** The title input's `onChange`. */
    method SetTitle(value: string)
      modifies this`title
      ensures title == value
    {
      title := value;
    }

    /** The content area's `onChange`. */
    method SetContent(value: string)
      modifies this`content
      ensures content == value
    {
      content := value;
    }

    /** `handleSave()`. */
    method HandleSave(freshId: string, now: string)
      modifies this`journal, this`toasts, this`navigations, store
      ensures var e := EntryToSave(old(journal), title, content, freshId, now);
        && store.items == old(store.items)[JournalsKey := JournalsValue(Upsert(old(store.GetJournals()), e, JournalId))]
        && store.GetJournal(e.id) == Some(e)
        && journal == Some(e)
        && toasts == old(toasts) + [SavedToastTitle]
        && navigations == old(navigations) + (if isNew then ["/journal/" + e.id] else [])
    {
      var entry := EntryToSave(journal, title, content, freshId, now);
      store.SaveJournal(entry);
      toasts := toasts + [SavedToastTitle];
      if isNew {
        navigations := navigations + ["/journal/" + entry.id];
      }
      journal := Some(entry);
    }

    /** The delete button is rendered (`!isNew && ...`). */
    predicate DeleteShown()
    {
      !isNew
    }

    /** `handleDelete()`: delete the loaded entry, if any, then go back to the list. */
    method HandleDelete()
      modifies this`toasts, this`navigations, store
      ensures old(journal).Some? ==>
        && store.items == old(store.items)[JournalsKey := JournalsValue(RemoveKey(old(store.GetJournals()), journal.value.id, JournalId))]
        && store.GetJournal(journal.value.id) == None
        && toasts == old(toasts) + [DeletedToastTitle]
      ensures old(journal).None? ==> store.items == old(store.items) && toasts == old(toasts)
      ensures navigations == old(navigations) + [JournalListPath]
    {
      if journal.Some? {
        store.DeleteJournal(journal.value.id);
        toasts := toasts + [DeletedToastTitle];
      }
      navigations := navigations + [JournalListPath];
    }
  }

  /**
   * The page at `/journal/new`, where the route gives no id: the title and
   * content are typed and saved. The entry gets the fresh id, no
   * navigation follows, and the delete button is shown, because `isNew`
   * is false on that route.
   */
  method NewEntryPage(store: LocalStore, title: string, content: string, freshId: string, now: string)
    returns (page: JournalEditorPage)
    modifies store
    ensures fresh(page) && page.store == store && !page.isNew && page.DeleteShown()
    ensures page.journal == Some(JournalEntry(freshId, OrElse(title, UntitledTitle), content, now, now, []))
    ensures store.GetJournal(freshId) == page.journal
    ensures page.toasts == [SavedToastTitle] && page.navigations == []
  {
    page := new JournalEditorPage(store, "");
    page.SetTitle(title);
    page.SetContent(content);
    page.HandleSave(freshId, now);
  }
}
