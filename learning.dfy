/**
 * The chapter learning page: a chat turn appends the user's message and
 * a canned tutor reply to one chapter, reset empties that chapter's
 * conversation, and complete marks it done. Every handler rebuilds the
 * chapter list with `map`, puts the new project in state and saves it.
 *
 * `Math.random()` is the parameter `random`; message ids and timestamps
 * are parameters; the one-second `setTimeout` before the reply is not
 * modelled.
 */
module Learning {
  import opened Wrappers
  import opened Text
  import opened Wire
  import opened Storage

  const ResetToastTitle: string := "对话已重置"
  const CompleteToastTitle: string := "章节完成！"

  function ChapterId(c: Chapter): string { c.id }

  /** `chapters.find(c => c.id === id)`. */
  function FindChapter(chapters: seq<Chapter>, id: string): (r: Option<Chapter>)
    ensures r.Some? ==> r.value.id == id && r.value in chapters
    ensures r.None? <==> forall i :: 0 <= i < |chapters| ==> chapters[i].id != id
  {
    Find(chapters, id, ChapterId)
  }

  /** `chapters.map(c => c.id === id ? f(c) : c)`. */
  function UpdateChapters(chapters: seq<Chapter>, id: string, f: Chapter -> Chapter): (r: seq<Chapter>)
    ensures |r| == |chapters|
    ensures forall i :: 0 <= i < |chapters| ==> r[i] == if chapters[i].id == id then f(chapters[i]) else chapters[i]
  {
    seq(|chapters|, i requires 0 <= i < |chapters| => if chapters[i].id == id then f(chapters[i]) else chapters[i])
  }

  /** An update that keeps chapter ids. */
  ghost predicate KeepsId(f: Chapter -> Chapter)
  {
    forall c :: f(c).id == c.id
  }

  /** `c => ({...c, messages: [...c.messages, m]})`. */
  function Appending(m: ChatMessage): (f: Chapter -> Chapter)
    ensures KeepsId(f)
  {
    (c: Chapter) => c.(messages := c.messages + [m])
  }

  function Cleared(c: Chapter): (r: Chapter)
    ensures r.id == c.id && r.messages == []
  {
    c.(messages := [])
  }

  function Completed(c: Chapter): (r: Chapter)
    ensures r.id == c.id && r.completed
  {
    c.(completed := true)
  }

  /** `handleSendMessage`'s chapter update, once per message. */
  function AppendMessage(chapters: seq<Chapter>, id: string, m: ChatMessage): (r: seq<Chapter>)
    ensures |r| == |chapters|
    ensures forall i :: 0 <= i < |chapters| ==>
      r[i] == if chapters[i].id == id then chapters[i].(messages := chapters[i].messages + [m]) else chapters[i]
  {
    UpdateChapters(chapters, id, Appending(m))
  }

  /** `handleResetChat`'s chapter update. */
  function ResetChat(chapters: seq<Chapter>, id: string): (r: seq<Chapter>)
    ensures |r| == |chapters|
    ensures forall i :: 0 <= i < |chapters| ==>
      r[i] == if chapters[i].id == id then chapters[i].(messages := []) else chapters[i]
  {
    UpdateChapters(chapters, id, Cleared)
  }

  /** `handleCompleteChapter`'s chapter update. */
  function CompleteChapter(chapters: seq<Chapter>, id: string): (r: seq<Chapter>)
    ensures |r| == |chapters|
    ensures forall i :: 0 <= i < |chapters| ==>
      r[i] == if chapters[i].id == id then chapters[i].(completed := true) else chapters[i]
  {
    UpdateChapters(chapters, id, Completed)
  }

  /** Two updates of the same chapters compose, chapter by chapter. */
  lemma UpdateTwice(chapters: seq<Chapter>, id: string, f: Chapter -> Chapter, g: Chapter -> Chapter)
    requires KeepsId(f)
    ensures var r := UpdateChapters(UpdateChapters(chapters, id, f), id, g);
      && |r| == |chapters|
      && forall i :: 0 <= i < |r| ==> r[i] == if chapters[i].id == id then g(f(chapters[i])) else chapters[i]
  {
    var r := UpdateChapters(UpdateChapters(chapters, id, f), id, g);
    forall i | 0 <= i < |r| ensures r[i] == if chapters[i].id == id then g(f(chapters[i])) else chapters[i] {
      assert f(chapters[i]).id == chapters[i].id;
    }
  }

  /** After an id-preserving update, looking the chapter up finds the updated chapter. */
  lemma FindAfterUpdate(chapters: seq<Chapter>, id: string, f: Chapter -> Chapter)
    requires KeepsId(f)
    ensures var found := FindChapter(chapters, id);
      FindChapter(UpdateChapters(chapters, id, f), id) == if found.Some? then Some(f(found.value)) else None
  {
    var r := UpdateChapters(chapters, id, f);
    FindAtFindIndex(chapters, id, ChapterId);
    FindAtFindIndex(r, id, ChapterId);
    var k := FindIndex(chapters, id, ChapterId);
    if k >= 0 {
      assert f(chapters[k]).id == chapters[k].id;
      FindIndexUnique(r, id, ChapterId, k);
    } else {
      assert forall i :: 0 <= i < |r| ==> ChapterId(r[i]) != id;
    }
  }

  /** A chat turn leaves the target chapters with `[user, assistant]` after their old messages. */
  lemma TurnAppendsPair(chapters: seq<Chapter>, id: string, user: ChatMessage, assistant: ChatMessage)
    ensures var r := AppendMessage(AppendMessage(chapters, id, user), id, assistant);
      && |r| == |chapters|
      && forall i :: 0 <= i < |r| ==>
           r[i] == if chapters[i].id == id then chapters[i].(messages := chapters[i].messages + [user, assistant]) else chapters[i]
  {
    UpdateTwice(chapters, id, Appending(user), Appending(assistant));
    forall i | 0 <= i < |chapters| && chapters[i].id == id
      ensures Appending(assistant)(Appending(user)(chapters[i])) == chapters[i].(messages := chapters[i].messages + [user, assistant])
    {
      assert chapters[i].messages + [user] + [assistant] == chapters[i].messages + [user, assistant];
    }
  }

  /** After a turn the chapter found by id holds the old messages followed by the pair. */
  lemma FindAfterTurn(chapters: seq<Chapter>, id: string, user: ChatMessage, assistant: ChatMessage)
    requires FindChapter(chapters, id).Some?
    ensures var c := FindChapter(chapters, id).value;
      FindChapter(AppendMessage(AppendMessage(chapters, id, user), id, assistant), id)
        == Some(c.(messages := c.messages + [user, assistant]))
  {
    var c := FindChapter(chapters, id).value;
    FindAfterUpdate(chapters, id, Appending(user));
    FindAfterUpdate(AppendMessage(chapters, id, user), id, Appending(assistant));
    assert c.messages + [user] + [assistant] == c.messages + [user, assistant];
  }

  /** Reset and complete are idempotent. */
  lemma ResetAndCompleteIdempotent(chapters: seq<Chapter>, id: string)
    ensures ResetChat(ResetChat(chapters, id), id) == ResetChat(chapters, id)
    ensures CompleteChapter(CompleteChapter(chapters, id), id) == CompleteChapter(chapters, id)
  {
    UpdateTwice(chapters, id, Cleared, Cleared);
    UpdateTwice(chapters, id, Completed, Completed);
  }

  /** The four canned replies of `generateMockResponse`. */
  function MockTemplates(userInput: string, chapterTitle: string): (t: seq<string>)
    ensures |t| == 4
  {
    [ "这是一个很好的问题！让我们一起来思考：在学习\"" + chapterTitle + "\"的过程中，你觉得最核心的概念是什么？为什么这个概念如此重要？",
      "我注意到你提到了\"" + Take(userInput, 20) + "...\"。这让我想到一个问题：你能举一个生活中的例子来说明这个概念吗？",
      "你的理解非常到位！让我们更深入一步：如果我们从另一个角度来看这个问题，会得出什么不同的结论？",
      "很棒的思考！在继续之前，让我问你：这个概念与我们之前讨论的内容有什么联系？" ]
  }

  /** `Math.floor(Math.random() * responses.length)` for a `Math.random()` value in [0, 1). */
  function MockIndex(random: real): (k: nat)
    requires 0.0 <= random < 1.0
    ensures k < 4
  {
    (random * 4.0).Floor
  }

  /** `generateMockResponse(userInput, chapterTitle)`. */
  function MockResponse(userInput: string, chapterTitle: string, random: real): (r: string)
    requires 0.0 <= random < 1.0
    ensures r in MockTemplates(userInput, chapterTitle)
  {
    MockTemplates(userInput, chapterTitle)[MockIndex(random)]
  }

  /** The first template names the chapter; the second quotes at most the first 20 characters of the input. */
  lemma MockTemplatesQuote(userInput: string, chapterTitle: string)
    ensures Includes(MockTemplates(userInput, chapterTitle)[0], chapterTitle)
    ensures Includes(MockTemplates(userInput, chapterTitle)[1], Take(userInput, 20))
    ensures forall u, t :: MockTemplates(u, t)[2] == MockTemplates(userInput, chapterTitle)[2]
    ensures forall u, t :: MockTemplates(u, t)[3] == MockTemplates(userInput, chapterTitle)[3]
  {
    IncludesMiddle("这是一个很好的问题！让我们一起来思考：在学习\"", chapterTitle,
      "\"的过程中，你觉得最核心的概念是什么？为什么这个概念如此重要？");
    IncludesMiddle("我注意到你提到了\"", Take(userInput, 20),
      "...\"。这让我想到一个问题：你能举一个生活中的例子来说明这个概念吗？");
  }

  /** Each quarter of the unit interval selects its own template. */
  lemma MockIndexQuarters(random: real)
    requires 0.0 <= random < 1.0
    ensures MockIndex(random) == 0 <==> random < 0.25
    ensures MockIndex(random) == 3 <==> random >= 0.75
  {
  }

  class LearningPage {
    const store: LocalStore
    const projectId: string
    const chapterId: string
    /** The project state cell. */
    var project: Option<StudyProject>
    var isLoading: bool
    /** The titles of the toasts shown so far. */
    var toasts: seq<string>
    /** The routes navigated to so far. */
    var navigations: seq<string>
    /** The projects passed to `saveProject`, in order. */
    ghost var saved: seq<StudyProject>

    /** The chapter the page shows, found on every render. */
    function CurrentChapter(): Option<Chapter>
      reads this
    {
      if project.None? then None else FindChapter(project.value.chapters, chapterId)
    }

    /** When this fails the page renders the not-found view, which has no handlers. */
    predicate Found()
      reads this
    {
      project.Some? && CurrentChapter().Some?
    }

    constructor (store: LocalStore, projectId: string, chapterId: string)
      ensures this.store == store && this.projectId == projectId && this.chapterId == chapterId
      ensures project == store.GetProject(projectId)
      ensures !isLoading && toasts == [] && navigations == [] && saved == []
    {
      this.store := store;
      this.projectId := projectId;
      this.chapterId := chapterId;
      project := store.GetProject(projectId);
      isLoading := false;
      toasts := [];
      navigations := [];
      saved := [];
    }

    /** `setProject(updated); saveProject(updated)`. */
    method Commit(updated: StudyProject)
      modifies this`project, this`saved, store
      ensures project == Some(updated) && saved == old(saved) + [updated]
      ensures store.items == old(store.items)[ProjectsKey := ProjectsValue(Upsert(old(store.GetProjects()), updated, ProjectId))]
      ensures store.GetProjects() == Upsert(old(store.GetProjects()), updated, ProjectId)
    {
      project := Some(updated);
      store.SaveProject(updated);
      saved := saved + [updated];
    }

    /**
     * The pattern every handler follows: `project.chapters.map(c => c.id
     * === chapterId ? f(c) : c)`, then `setProject` and `saveProject`.
     */
    method ApplyToChapter(f: Chapter -> Chapter)
      requires Found() && KeepsId(f)
      modifies this`project, this`saved, store
      ensures project == Some(old(project.value).(chapters := UpdateChapters(old(project.value.chapters), chapterId, f)))
      ensures Found() && CurrentChapter() == Some(f(old(CurrentChapter().value)))
      ensures saved == old(saved) + [project.value]
      ensures store.items == old(store.items)[ProjectsKey := ProjectsValue(Upsert(old(store.GetProjects()), project.value, ProjectId))]
    {
      var p := project.value;
      FindAfterUpdate(p.chapters, chapterId, f);
      Commit(p.(chapters := UpdateChapters(p.chapters, chapterId, f)));
    }

    /**
     * The two saves of `handleSendMessage`: the project with the user's
     * message, then the project with the reply as well.
     */
    method Turn(user: ChatMessage, reply: ChatMessage)
      requires Found()
      modifies this`project, this`saved, store
      ensures project == Some(old(project.value).(chapters :=
        AppendMessage(AppendMessage(old(project.value.chapters), chapterId, user), chapterId, reply)))
      ensures Found() && CurrentChapter().value.messages == old(CurrentChapter().value.messages) + [user, reply]
      ensures saved == old(saved) + [old(project.value).(chapters := AppendMessage(old(project.value.chapters), chapterId, user)),
                                     project.value]
      ensures store.items == old(store.items)[ProjectsKey := ProjectsValue(Upsert(old(store.GetProjects()), project.value, ProjectId))]
    {
      var p := project.value;
      var withUser := p.(chapters := AppendMessage(p.chapters, chapterId, user));
      var withReply := withUser.(chapters := AppendMessage(withUser.chapters, chapterId, reply));
      CommitTwice(withUser, withReply);
      FindAfterTurn(p.chapters, chapterId, user, reply);
    }

    /** Two saves of the same project in a row: the store ends up as if only the second happened. */
    method CommitTwice(first: StudyProject, second: StudyProject)
      requires first.id == second.id
      modifies this`project, this`saved, store
      ensures project == Some(second) && saved == old(saved) + [first, second]
      ensures store.items == old(store.items)[ProjectsKey := ProjectsValue(Upsert(old(store.GetProjects()), second, ProjectId))]
    {
      ghost var before := store.GetProjects();
      ghost var items := store.items;
      Commit(first);
      Commit(second);
      UpsertTwice(before, first, second, ProjectId);
      assert store.items == items[ProjectsKey := ProjectsValue(Upsert(before, second, ProjectId))];
    }

    /** `handleSendMessage(content)`: the user's message, then the canned reply, in the current chapter. */
    method HandleSendMessage(content: string, userId: string, userTime: string,
                             replyId: string, replyTime: string, random: real)
      requires Found() && 0.0 <= random < 1.0
      modifies this`project, this`saved, this`isLoading, store
      ensures var user := ChatMessage(userId, User, content, userTime);
        var reply := ChatMessage(replyId, Assistant, MockResponse(content, old(CurrentChapter().value.title), random), replyTime);
        && project == Some(old(project.value).(chapters :=
             AppendMessage(AppendMessage(old(project.value.chapters), chapterId, user), chapterId, reply)))
        && Found() && CurrentChapter().value.messages == old(CurrentChapter().value.messages) + [user, reply]
        && saved == old(saved) + [old(project.value).(chapters := AppendMessage(old(project.value.chapters), chapterId, user)),
                                  project.value]
      ensures store.items == old(store.items)[ProjectsKey := ProjectsValue(Upsert(old(store.GetProjects()), project.value, ProjectId))]
      ensures !isLoading
    {
      isLoading := true;
      var chapter := CurrentChapter().value;
      var userMessage := ChatMessage(userId, User, content, userTime);
      var assistantMessage := ChatMessage(replyId, Assistant, MockResponse(content, chapter.title, random), replyTime);
      Turn(userMessage, assistantMessage);
      isLoading := false;
    }

    /** `handleResetChat()`. */
    method HandleResetChat()
      requires Found()
      modifies this`project, this`saved, this`toasts, store
      ensures project == Some(old(project.value).(chapters := ResetChat(old(project.value.chapters), chapterId)))
      ensures Found() && CurrentChapter().value == old(CurrentChapter().value).(messages := [])
      ensures saved == old(saved) + [project.value]
      ensures store.items == old(store.items)[ProjectsKey := ProjectsValue(Upsert(old(store.GetProjects()), project.value, ProjectId))]
      ensures toasts == old(toasts) + [ResetToastTitle] && navigations == old(navigations) && isLoading == old(isLoading)
    {
      ApplyToChapter(Cleared);
      toasts := toasts + [ResetToastTitle];
    }

    /** `handleCompleteChapter()`: mark the chapter done, then return to the project. */
    method HandleCompleteChapter()
      requires Found()
      modifies this`project, this`saved, this`toasts, this`navigations, store
      ensures project == Some(old(project.value).(chapters := CompleteChapter(old(project.value.chapters), chapterId)))
      ensures Found() && CurrentChapter().value == old(CurrentChapter().value).(completed := true)
      ensures saved == old(saved) + [project.value]
      ensures store.items == old(store.items)[ProjectsKey := ProjectsValue(Upsert(old(store.GetProjects()), project.value, ProjectId))]
      ensures toasts == old(toasts) + [CompleteToastTitle]
      ensures navigations == old(navigations) + ["/projects/" + projectId] && isLoading == old(isLoading)
    {
      ApplyToChapter(Completed);
      toasts := toasts + [CompleteToastTitle];
      navigations := navigations + ["/projects/" + projectId];
    }
  }
}
