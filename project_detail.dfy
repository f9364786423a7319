/**
 * The project detail page: the completion count and progress of the
 * project, toggling a chapter's completed flag, and deleting the
 * project.
 */
module ProjectDetail {
  import opened Wrappers
  import opened Storage
  import opened Learning
  import ProjectCard

  const DeletedToastTitle: string := "项目已删除"

  /** `{...ch, completed: !ch.completed}`. */
  function Toggled(c: Chapter): (r: Chapter)
    ensures r.id == c.id && r.completed == !c.completed
  {
    c.(completed := !c.completed)
  }

  /** `toggleChapterComplete(chapterId)`'s new project. */
  function ToggleChapter(project: StudyProject, chapterId: string): (r: StudyProject)
    ensures r.(chapters := project.chapters) == project
    ensures |r.chapters| == |project.chapters|
    ensures forall i :: 0 <= i < |r.chapters| ==>
      && r.chapters[i].(completed := project.chapters[i].completed) == project.chapters[i]
      && (r.chapters[i].completed <==> (project.chapters[i].completed != (project.chapters[i].id == chapterId)))
  {
    project.(chapters := UpdateChapters(project.chapters, chapterId, Toggled))
  }

  /** Toggling the same chapter twice restores the project. */
  lemma ToggleInvolution(project: StudyProject, chapterId: string)
    ensures ToggleChapter(ToggleChapter(project, chapterId), chapterId) == project
  {
    var chs := project.chapters;
    UpdateTwice(chs, chapterId, Toggled, Toggled);
    var r := UpdateChapters(UpdateChapters(chs, chapterId, Toggled), chapterId, Toggled);
    assert r == chs;
  }

  /** Toggling one chapter moves the completed count by exactly one per matching chapter. */
  lemma {:induction false} ToggleCount(chapters: seq<Chapter>, chapterId: string)
    requires forall i :: 0 <= i < |chapters| && chapters[i].id == chapterId ==> !chapters[i].completed
    ensures ProjectCard.CompletedChapters(UpdateChapters(chapters, chapterId, Toggled))
         == ProjectCard.CompletedChapters(chapters) + Matching(chapters, chapterId)
  {
    if chapters != [] {
      var r := UpdateChapters(chapters, chapterId, Toggled);
      assert r[1..] == UpdateChapters(chapters[1..], chapterId, Toggled);
      ToggleCount(chapters[1..], chapterId);
    }
  }

  /** The number of chapters with this id. */
  function Matching(chapters: seq<Chapter>, chapterId: string): (n: nat)
    ensures n <= |chapters|
  {
    if chapters == [] then 0
    else (if chapters[0].id == chapterId then 1 else 0) + Matching(chapters[1..], chapterId)
  }

  class ProjectDetailPage {
    const store: LocalStore
    /** The project state cell; None renders the not-found view. */
    var project: Option<StudyProject>
    /** The titles and descriptions of the toasts shown so far. */
    var toasts: seq<(string, string)>
    /** The routes navigated to so far. */
    var navigations: seq<string>

    constructor (store: LocalStore, id: string)
      ensures this.store == store && project == store.GetProject(id)
      ensures toasts == [] && navigations == []
    {
      this.store := store;
      project := store.GetProject(id);
      toasts := [];
      navigations := [];
    }

    /** `completedChapters`. */
    function CompletedChapters(): (n: nat)
      reads this
      requires project.Some?
      ensures n <= |project.value.chapters|
    {
      ProjectCard.CompletedChapters(project.value.chapters)
    }

    /** `progressPercent`. */
    function Progress(): (r: real)
      reads this
      requires project.Some?
      ensures 0.0 <= r <= 100.0
      ensures project.value.chapters == [] ==> r == 0.0
    {
      ProjectCard.ProgressPercent(project.value.chapters)
    }

    /** `toggleChapterComplete(chapterId)`: the same new project is put in state and saved. */
    method ToggleChapterComplete(chapterId: string)
      requires project.Some?
      modifies this`project, store
      ensures project == Some(ToggleChapter(old(project.value), chapterId))
      ensures store.items == old(store.items)[ProjectsKey := ProjectsValue(Upsert(old(store.GetProjects()), project.value, ProjectId))]
      ensures store.GetProject(project.value.id) == project
    {
      var updated := ToggleChapter(project.value, chapterId);
      project := Some(updated);
      store.SaveProject(updated);
    }

    /** `handleDelete()`: delete by the shown project's id, announce it, and leave the page. */
    method HandleDelete()
      requires project.Some?
      modifies this`toasts, this`navigations, store
      ensures store.items == old(store.items)[ProjectsKey := ProjectsValue(RemoveKey(old(store.GetProjects()), project.value.id, ProjectId))]
      ensures store.GetProject(project.value.id) == None
      ensures toasts == old(toasts) + [(DeletedToastTitle, "\"" + project.value.title + "\" 已被删除")]
      ensures navigations == old(navigations) + ["/projects"]
    {
      store.DeleteProject(project.value.id);
      toasts := toasts + [(DeletedToastTitle, "\"" + project.value.title + "\" 已被删除")];
      navigations := navigations + ["/projects"];
    }
  }
}
