/**
 * The create-project page: the five demonstration chapters, the project
 * title cut to 20 characters, and `handleSubmit`, which saves the new
 * project, shows a toast and opens the project.
 *
 * `generateId()` and the clock are parameters: the project's id, the five
 * chapter ids and the creation time come in from the caller. The
 * 1.5-second delay before the project is built has no effect on the
 * result and is not modelled.
 */
module CreateProject {
  import opened Wrappers
  import opened Text
  import opened Storage
  import opened CreateProjectForm

  const ChapterCount: nat := 5
  const ChapterNames: seq<string> := ["概述与入门", "核心概念", "实践应用", "进阶探索", "总结与反思"]
  const TitleLimit: nat := 20
  const Ellipsis: string := "..."
  const CreatedToastTitle: string := "学习计划已生成"

  /** The description of chapter `i`; the first four mention the topic. */
  function ChapterDescription(i: nat, topic: string): string
    requires i < ChapterCount
  {
    if i == 0 then "了解" + topic + "的基本概念和历史背景"
    else if i == 1 then "深入理解" + topic + "的核心理论和原则"
    else if i == 2 then "将" + topic + "的知识应用到实际场景"
    else if i == 3 then "探索" + topic + "的高级主题和前沿发展"
    else "回顾学习成果，巩固知识体系"
  }

  /** `第${i + 1}章：${title}`. */
  function ChapterHeading(i: nat): string
  {
    "第" + Decimal(i + 1) + "章："
  }

  /**
   * `generateMockChapters(topic)`, given the five ids `generateId()`
   * returns. The literal has no `objectives`, which is the empty list here.
   */
  function MockChapters(topic: string, ids: seq<string>): (cs: seq<Chapter>)
    requires |ids| == ChapterCount
    ensures |cs| == ChapterCount
    ensures forall i :: 0 <= i < |cs| ==>
      && cs[i].id == ids[i]
      && StartsWith(cs[i].title, ChapterHeading(i))
      && cs[i].title[|ChapterHeading(i)|..] == ChapterNames[i]
      && cs[i].description == ChapterDescription(i, topic)
      && !cs[i].completed && cs[i].messages == [] && cs[i].objectives == []
  {
    seq(ChapterCount, i requires 0 <= i < ChapterCount =>
      Chapter(ids[i], ChapterHeading(i) + ChapterNames[i], ChapterDescription(i, topic), [], false, []))
  }

  /** The first four chapter descriptions name the topic. */
  lemma DescriptionsMentionTopic(topic: string, ids: seq<string>, i: nat)
    requires |ids| == ChapterCount && i < 4
    ensures Includes(MockChapters(topic, ids)[i].description, topic)
  {
    var d := ChapterDescription(i, topic);
    if i == 0 {
      IncludesMiddle("了解", topic, "的基本概念和历史背景");
    } else if i == 1 {
      IncludesMiddle("深入理解", topic, "的核心理论和原则");
    } else if i == 2 {
      IncludesMiddle("将", topic, "的知识应用到实际场景");
    } else {
      IncludesMiddle("探索", topic, "的高级主题和前沿发展");
    }
  }

  /** Chapters are numbered 1 to 5 in order: the headings are pairwise distinct. */
  lemma HeadingsDistinct(i: nat, j: nat)
    requires i < ChapterCount && j < ChapterCount && i != j
    ensures ChapterHeading(i) != ChapterHeading(j)
  {
    assert Decimal(i + 1) == [DigitChar(i + 1)];
    assert Decimal(j + 1) == [DigitChar(j + 1)];
    assert ChapterHeading(i)[1] == DigitChar(i + 1);
    assert ChapterHeading(j)[1] == DigitChar(j + 1);
  }

  /** The project title: the topic, or its first 20 characters and `...` when longer. */
  function ProjectTitle(topic: string): (t: string)
    ensures |topic| <= TitleLimit ==> t == topic
    ensures |topic| > TitleLimit ==> t == topic[..TitleLimit] + Ellipsis
    ensures |t| <= TitleLimit + |Ellipsis|
    ensures Take(t, TitleLimit) <= topic
  {
    if |topic| > TitleLimit then Take(topic, TitleLimit) + Ellipsis else topic
  }

  /**
   * The title leaves a topic unchanged exactly when it is at most 20
   * characters long, or is 23 characters long and already ends in `...`.
   */
  lemma TitleFixedPoints(topic: string)
    ensures ProjectTitle(topic) == topic <==>
      |topic| <= TitleLimit || (|topic| == TitleLimit + |Ellipsis| && topic[TitleLimit..] == Ellipsis)
  {
    var t := ProjectTitle(topic);
    if |topic| > TitleLimit {
      assert t[TitleLimit..] == Ellipsis;
      if |topic| == TitleLimit + |Ellipsis| && topic[TitleLimit..] == Ellipsis {
        assert topic == topic[..TitleLimit] + topic[TitleLimit..];
      }
    }
  }

  /** The `StudyProject` literal of `handleSubmit`; it has no `learningObjectives`. */
  function NewProject(data: ProjectFormData, id: string, chapterIds: seq<string>, now: string): (p: StudyProject)
    requires |chapterIds| == ChapterCount
    ensures p.id == id && p.title == ProjectTitle(data.topic) && p.createdAt == now
    ensures p.topic == data.topic && p.goal == data.goal && p.level == data.level
    ensures p.timePerDay == data.timePerDay && p.durationDays == data.durationDays
    ensures p.progress == 0 && p.learningObjectives == []
    ensures |p.chapters| == ChapterCount && forall c <- p.chapters :: !c.completed && c.messages == []
  {
    var chapters := MockChapters(data.topic, chapterIds);
    assert forall c <- chapters :: !c.completed && c.messages == [] by {
      forall c <- chapters ensures !c.completed && c.messages == [] {
        var i :| 0 <= i < |chapters| && chapters[i] == c;
      }
    }
    StudyProject(id, ProjectTitle(data.topic), data.topic, data.goal, data.level, data.timePerDay,
                 data.durationDays, chapters, [], now, 0)
  }

  /** The toast's description: `共 ${chapters.length} 个章节，开始你的学习之旅吧！`. */
  function CreatedToastText(chapterCount: nat): string
  {
    "共 " + Decimal(chapterCount) + " 个章节，开始你的学习之旅吧！"
  }

  /** With the five generated chapters the toast reads `共 5 个章节，开始你的学习之旅吧！`. */
  lemma CreatedToastForFive()
    ensures CreatedToastText(ChapterCount) == "共 5 个章节，开始你的学习之旅吧！"
  {
    assert DigitChar(5) == '5';
    assert Decimal(ChapterCount) == "5";
  }

  class CreateProjectPage {
    const store: LocalStore
    var isLoading: bool
    /** Toasts shown so far, as (title, description). */
    var toasts: seq<(string, string)>
    /** Paths navigated to so far. */
    var navigations: seq<string>

    constructor (store: LocalStore)
      ensures this.store == store && !isLoading && toasts == [] && navigations == []
    {
      this.store := store;
      isLoading := false;
      toasts := [];
      navigations := [];
    }

    /** `handleSubmit(data)`: save the new project and open it. */
    method HandleSubmit(data: ProjectFormData, id: string, chapterIds: seq<string>, now: string)
      requires |chapterIds| == ChapterCount
      modifies this, store
      ensures store.items == old(store.items)[ProjectsKey :=
        ProjectsValue(Upsert(old(store.GetProjects()), NewProject(data, id, chapterIds, now), ProjectId))]
      ensures store.GetProject(id) == Some(NewProject(data, id, chapterIds, now))
      ensures toasts == old(toasts) + [(CreatedToastTitle, "共 5 个章节，开始你的学习之旅吧！")]
      ensures navigations == old(navigations) + ["/projects/" + id]
      ensures !isLoading
    {
      isLoading := true;
      var project := NewProject(data, id, chapterIds, now);
      store.SaveProject(project);
      CreatedToastForFive();
      toasts := toasts + [(CreatedToastTitle, CreatedToastText(|project.chapters|))];
      navigations := navigations + ["/projects/" + project.id];
      isLoading := false;
    }
  }
}
